/**
 The two collaborators the bot talks to: the chat-completion endpoint and the
 Spotify Web API. Both are oracles. What they answer is passed in; what the
 bot asks of them is recorded as a trace of events, in call order.
 */
module Services {
  import opened JsonValue

  datatype Role = System | User | Assistant

  /**
   The fixed wording of each prompt message. The exact text, indentation
   included, is not modelled; only which instruction is sent.
   */
  datatype Template =
    | InitiateInstructions   // system: build a taste profile from user data
    | UpdateInstructions     // system: update the existing taste profile
    | ExistingProfileSection // user: "Existing music taste profile starts here"
    | UserDataSection        // user: "User data starts here"
    | TokenCapNotice         // user: keep the profile under the token count
    | RecommendInstructions  // system: recommend tracks from the profile
    | ProfileSection         // user: "Music taste profile starts here"
    | RecommendRequest       // user: prompt, track count, bulleted-list format
    | StructureInstructions  // system: turn a track list into JSON
    | StructureRequest       // user: the raw list plus the JSON example
    | TitleInstructions      // system: write a playlist title and description
    | TitleRequest           // user: prompt plus tracks, two lines wanted

  /** A value interpolated into a prompt. */
  datatype Slot =
    | TextSlot(text: string)
    | Number(n: int)
    | Tracks(tracks: seq<Json>)   // rendered with Python's `list.__str__`

  datatype Content = Content(template: Template, slots: seq<Slot>)

  datatype Message = Message(role: Role, content: Content)

  /** The chat-completion oracle: the reply to a message list under a token cap. */
  type Completion = (seq<Message>, int) -> string

  /** One request the bot sends to a collaborator. */
  datatype Event =
    | Complete(messages: seq<Message>, maxTokens: int)
    | FetchSavedTracks
    | FetchNextPage
    | FetchTopArtists(timeRange: string, limit: int)
    | Search(query: string, kind: string, limit: int)
    | FetchCurrentUser
    | CreatePlaylist(user: string, name: string, isPublic: bool, collaborative: bool, description: string)
    | AddItems(playlistId: string, uris: seq<string>)

  /** The roles of a message list, in order. */
  function Roles(ms: seq<Message>): (rs: seq<Role>)
    ensures |rs| == |ms|
    ensures forall i :: 0 <= i < |ms| ==> rs[i] == ms[i].role
  {
    if |ms| == 0 then [] else [ms[0].role] + Roles(ms[1..])
  }

  /** Some message of `ms` interpolates `v`. */
  predicate Embeds(ms: seq<Message>, v: Slot)
  {
    exists i :: 0 <= i < |ms| && v in ms[i].content.slots
  }

  /** The reply the completion oracle gives to a recorded completion request. */
  function Reply(complete: Completion, e: Event): string
    requires e.Complete?
  {
    complete(e.messages, e.maxTokens)
  }

  /** The trace never creates a playlist. */
  predicate NoPlaylistCreated(trace: seq<Event>)
  {
    forall i :: 0 <= i < |trace| ==> !trace[i].CreatePlaylist? && !trace[i].AddItems?
  }

  /** Two traces that create no playlist, one after the other, create none either. */
  lemma NoPlaylistCreatedAppend(a: seq<Event>, b: seq<Event>)
    requires NoPlaylistCreated(a) && NoPlaylistCreated(b)
    ensures NoPlaylistCreated(a + b)
  {
  }
}
