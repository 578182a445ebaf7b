/**
 The end-to-end pipeline of `generate_playlist`: recommend tracks from the
 taste profile, name the playlist, then hand both to the Spotify wrapper.
 */
module SpotiBot {
  import opened JsonValue
  import opened Services
  import opened SpotipyWrapper
  import opened Recommendation
  import opened PlaylistTitle

  /**
   `generate_playlist`: two recommendation requests, one naming request,
   then the searches and, when something resolved, the playlist creation.
   The outcome is the wrapper's: an error, no playlist, or the new id.
   */
  function GeneratePlaylist(sp: Spotify, show: Json -> string, complete: Completion, parse: string -> Parsed,
                            profile: string, prompt: string, numTracks: int, maxTokens: int): (r: Assembled)
    ensures var recommended := RecommendTracks(profile, prompt, numTracks, maxTokens, complete, parse);
      var titled := GenerateNameAndDescription(prompt, recommended.tracks, complete);
      var made := CreatePlaylistFromJson(sp, show, titled.spec.name, titled.spec.description, recommended.tracks);
      && r.outcome == made.outcome
      && r.trace == recommended.trace + titled.trace + made.trace
    ensures |r.trace| >= 3
    ensures r.trace[0].Complete? && r.trace[0].maxTokens == maxTokens
    ensures r.trace[1].Complete? && r.trace[1].maxTokens == maxTokens
    ensures r.trace[2].Complete? && r.trace[2].maxTokens == TitleMaxTokens
    ensures r.outcome.PlaylistId? ==> r.outcome.id == sp.newPlaylistId
    ensures !r.outcome.PlaylistId? ==> NoPlaylistCreated(r.trace)
  {
    var recommended := RecommendTracks(profile, prompt, numTracks, maxTokens, complete, parse);
    var titled := GenerateNameAndDescription(prompt, recommended.tracks, complete);
    var made := CreatePlaylistFromJson(sp, show, titled.spec.name, titled.spec.description, recommended.tracks);
    var asked := recommended.trace + titled.trace;
    assert asked == [recommended.trace[0], recommended.trace[1], titled.trace[0]];
    assert !made.outcome.PlaylistId? ==> NoPlaylistCreated(asked + made.trace) by {
      if !made.outcome.PlaylistId? {
        assert NoPlaylistCreated(asked);
        NoPlaylistCreatedAppend(asked, made.trace);
      }
    }
    Assembled(made.outcome, asked + made.trace)
  }

  /**
   When the structuring reply is not JSON, the pipeline sends its three
   completion requests and nothing else, and creates no playlist.
   */
  lemma MalformedReplyCreatesNothing(sp: Spotify, show: Json -> string, complete: Completion, parse: string -> Parsed,
                                     profile: string, prompt: string, numTracks: int, maxTokens: int)
    requires parse(complete(StructuringMessages(complete(RawMessages(profile, prompt, numTracks), maxTokens)), maxTokens)) == NotJson
    ensures GeneratePlaylist(sp, show, complete, parse, profile, prompt, numTracks, maxTokens).outcome == NoPlaylist
    ensures |GeneratePlaylist(sp, show, complete, parse, profile, prompt, numTracks, maxTokens).trace| == 3
    ensures NoPlaylistCreated(GeneratePlaylist(sp, show, complete, parse, profile, prompt, numTracks, maxTokens).trace)
  {
  }

  /** Every creation request the wrapper sends is public, non-collaborative and carries the given name. */
  lemma CreationCarriesName(sp: Spotify, show: Json -> string, name: string, description: string, tracks: seq<Json>)
    ensures var made := CreatePlaylistFromJson(sp, show, name, description, tracks);
      forall i :: 0 <= i < |made.trace| && made.trace[i].CreatePlaylist? ==>
        made.trace[i].name == name && made.trace[i].isPublic && !made.trace[i].collaborative
  {
  }

  /**
   A playlist is created only under a non-empty name: the creation request
   carries the parsed title, which falls back to "Untitled".
   */
  lemma CreatedPlaylistIsNamed(sp: Spotify, show: Json -> string, complete: Completion, parse: string -> Parsed,
                               profile: string, prompt: string, numTracks: int, maxTokens: int)
    ensures var r := GeneratePlaylist(sp, show, complete, parse, profile, prompt, numTracks, maxTokens);
      forall i :: 0 <= i < |r.trace| && r.trace[i].CreatePlaylist? ==> r.trace[i].name != "" && r.trace[i].isPublic
  {
    var r := GeneratePlaylist(sp, show, complete, parse, profile, prompt, numTracks, maxTokens);
    var recommended := RecommendTracks(profile, prompt, numTracks, maxTokens, complete, parse);
    var titled := GenerateNameAndDescription(prompt, recommended.tracks, complete);
    var made := CreatePlaylistFromJson(sp, show, titled.spec.name, titled.spec.description, recommended.tracks);
    CreationCarriesName(sp, show, titled.spec.name, titled.spec.description, recommended.tracks);
    var asked := recommended.trace + titled.trace;
    assert |asked| == 3 && forall j :: 0 <= j < 3 ==> asked[j].Complete?;
    assert r.trace == asked + made.trace;
    assert titled.spec.name != "";
    assert forall j :: 0 <= j < 3 ==> r.trace[j] == asked[j];
    forall i | 0 <= i < |r.trace| && r.trace[i].CreatePlaylist?
      ensures r.trace[i].name != "" && r.trace[i].isPublic
    {
      assert r.trace[i] == made.trace[i - 3];
    }
  }

  /**
   An entry that is not an object makes the wrapper raise before any
   search. So once validation lets a string entry through, which it does for
   a string naming both keys, assembling the playlist raises.
   */
  lemma StringEntryRaises(sp: Spotify, show: Json -> string, name: string, description: string,
                          items: seq<Json>, k: nat)
    requires k < |items| && items[k].JString?
    ensures var kept := Validate(TopArray(items));
      kept != [] ==>
        && CreatePlaylistFromJson(sp, show, name, description, kept).outcome == Raised
        && CreatePlaylistFromJson(sp, show, name, description, kept).trace == []
  {
  }

  /** The entry `"track and artist"` passes validation and then raises. */
  lemma TrackAndArtistStringRaises(sp: Spotify, show: Json -> string, name: string, description: string)
    ensures CreatePlaylistFromJson(sp, show, name, description, Validate(TopArray([JString("track and artist")]))).outcome == Raised
    ensures CreatePlaylistFromJson(sp, show, name, description, Validate(TopArray([JString("track and artist")]))).trace == []
  {
    StringEntryPasses();
    StringEntryRaises(sp, show, name, description, [JString("track and artist")], 0);
  }
}
