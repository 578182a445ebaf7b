/**
 Track recommendation: ask the model for a bulleted list, ask it again to
 turn that list into JSON, and keep the decoded array only if every entry
 has both a "track" and an "artist". Any failure degrades to no
 recommendations; nothing is raised to the caller.
 */
module Recommendation {
  import opened Text
  import opened JsonValue
  import opened Services

  datatype Recommended = Recommended(tracks: seq<Json>, trace: seq<Event>)

  /** The first request: the profile, then the user's prompt and the track count. */
  function RawMessages(profile: string, prompt: string, numTracks: int): seq<Message>
  {
    [ Message(System, Content(RecommendInstructions, [])),
      Message(User, Content(ProfileSection, [TextSlot(profile)])),
      Message(User, Content(RecommendRequest, [TextSlot(prompt), Number(numTracks)])) ]
  }

  /** The second request: the raw list, with the JSON shape to produce. */
  function StructuringMessages(raw: string): seq<Message>
  {
    [ Message(System, Content(StructureInstructions, [])),
      Message(User, Content(StructureRequest, [TextSlot(raw)])) ]
  }

  /**
   The `try`/`except` around `json.loads` and the key check: the decoded
   array when every entry passes, otherwise the empty list. Entries keep any
   extra keys.
   */
  function Validate(parsed: Parsed): (r: seq<Json>)
    ensures AllHaveTrackAndArtist(r)
    ensures r == [] || (parsed.TopArray? && r == parsed.items)
    ensures parsed.TopArray? && AllHaveTrackAndArtist(parsed.items) ==> r == parsed.items
  {
    match parsed
    case NotJson => []
    case TopArray(items) => if AllHaveTrackAndArtist(items) then items else []
  }

  /**
   `recommend_tracks`: two completion requests under the same cap; the
   second shows the model the first reply verbatim; the result is the
   validated decoding of the second reply.
   */
  function RecommendTracks(profile: string, prompt: string, numTracks: int, maxTokens: int,
                           complete: Completion, parse: string -> Parsed): (r: Recommended)
    ensures |r.trace| == 2 && r.trace[0].Complete? && r.trace[1].Complete?
    ensures r.trace[0].maxTokens == maxTokens && r.trace[1].maxTokens == maxTokens
    ensures Roles(r.trace[0].messages) == [System, User, User]
    ensures Embeds(r.trace[0].messages, TextSlot(profile))
    ensures Embeds(r.trace[0].messages, TextSlot(prompt))
    ensures Embeds(r.trace[0].messages, Number(numTracks))
    ensures Roles(r.trace[1].messages) == [System, User]
    ensures r.trace[1].messages[1].content.slots == [TextSlot(Reply(complete, r.trace[0]))]
    ensures AllHaveTrackAndArtist(r.tracks)
    ensures r.tracks == [] || parse(Reply(complete, r.trace[1])) == TopArray(r.tracks)
    ensures parse(Reply(complete, r.trace[1])).NotJson? ==> r.tracks == []
    ensures var p := parse(Reply(complete, r.trace[1]));
      p.TopArray? && AllHaveTrackAndArtist(p.items) ==> r.tracks == p.items
  {
    var first := Complete(RawMessages(profile, prompt, numTracks), maxTokens);
    var raw := complete(first.messages, first.maxTokens);
    var second := Complete(StructuringMessages(raw), maxTokens);
    var reply := complete(second.messages, second.maxTokens);
    assert TextSlot(profile) in first.messages[1].content.slots;
    assert TextSlot(prompt) in first.messages[2].content.slots;
    assert Number(numTracks) in first.messages[2].content.slots;
    Recommended(Validate(parse(reply)), [first, second])
  }

  /** `[{"track": "A", "artist": "B"}]` yields exactly that one entry. */
  lemma SingleTrackKept()
    ensures Validate(TopArray([TrackObject("A", "B")])) == [TrackObject("A", "B")]
  {
  }

  /** A list of well-formed track objects is kept whole: five in, five out. */
  lemma {:induction false} TrackObjectsKept(names: seq<(string, string)>)
    ensures var items := seq(|names|, k requires 0 <= k < |names| => TrackObject(names[k].0, names[k].1));
      Validate(TopArray(items)) == items && |Validate(TopArray(items))| == |names|
  {
    var items := seq(|names|, k requires 0 <= k < |names| => TrackObject(names[k].0, names[k].1));
    forall k | 0 <= k < |items|
      ensures HasTrackAndArtist(items[k])
    {
      TrackObjectPasses(names[k].0, names[k].1);
    }
  }

  /**
   One entry lacking "track" or "artist", at any position, discards the
   whole list: the check is all-or-nothing.
   */
  lemma MissingKeyDiscardsAll(items: seq<Json>, k: nat)
    requires k < |items|
    requires !PyIn("track", items[k]) || !PyIn("artist", items[k])
    ensures Validate(TopArray(items)) == []
  {
  }

  /** A list with an entry that has "track" but no "artist" comes back empty. */
  lemma MissingArtistDiscardsAll(good: Json)
    ensures Validate(TopArray([good, JObject([("track", JString("A"))])])) == []
  {
    var bad := JObject([("track", JString("A"))]);
    assert Keys(bad.fields) == ["track"];
    MissingKeyDiscardsAll([good, bad], 1);
  }

  /**
   Python's `in` on a string is a substring test, so a list of bare strings
   that each mention both words passes the check whole.
   */
  lemma StringEntriesPass(items: seq<Json>)
    requires forall i :: 0 <= i < |items| ==>
      items[i].JString? && IsSubstring("track", items[i].s) && IsSubstring("artist", items[i].s)
    ensures Validate(TopArray(items)) == items
  {
  }

  /** The string `"track and artist"` passes as an entry of its own. */
  lemma StringEntryPasses()
    ensures Validate(TopArray([JString("track and artist")])) == [JString("track and artist")]
  {
    var s := "track and artist";
    OccursAt("track", s, 0);
    OccursAt("artist", s, 10);
    StringEntriesPass([JString(s)]);
  }
}
