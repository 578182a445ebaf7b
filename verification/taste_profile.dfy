/**
 The taste profile the bot keeps: a single string, empty until the first
 profile is generated and afterwards always the latest completion reply.
 Generating dispatches on that string: an empty profile is initiated from
 the user data, a non-empty one is updated with it.
 */
module TasteProfile {
  import opened Text
  import opened Services
  import opened SpotipyWrapper

  /** The profile after a step, and the requests the step sent. */
  datatype Step = Step(profile: string, trace: seq<Event>)

  /** The hard token cap exceeds the requested length by this much. */
  const Headroom := 20

  /** System instruction, the user data, and the requested length. */
  function InitiationMessages(userData: string, maxTokens: int): seq<Message>
  {
    [ Message(System, Content(InitiateInstructions, [])),
      Message(User, Content(UserDataSection, [TextSlot(userData)])),
      Message(User, Content(TokenCapNotice, [Number(maxTokens)])) ]
  }

  /** System instruction, the existing profile, the user data, and the requested length. */
  function UpdateMessages(profile: string, userData: string, maxTokens: int): seq<Message>
  {
    [ Message(System, Content(UpdateInstructions, [])),
      Message(User, Content(ExistingProfileSection, [TextSlot(profile)])),
      Message(User, Content(UserDataSection, [TextSlot(userData)])),
      Message(User, Content(TokenCapNotice, [Number(maxTokens)])) ]
  }

  /** A recorded request that starts a profile from scratch. */
  predicate IsInitiation(e: Event)
  {
    e.Complete? && |e.messages| > 0 && e.messages[0].content.template == InitiateInstructions
  }

  /**
   `initiate_taste_profile`: one completion request capped at
   `maxTokens + 20`, whose reply becomes the whole profile. The previous
   profile is neither read nor kept.
   */
  function InitiateTasteProfile(userData: string, maxTokens: int, complete: Completion): (r: Step)
    ensures |r.trace| == 1 && IsInitiation(r.trace[0])
    ensures r.trace[0].maxTokens == maxTokens + Headroom
    ensures r.profile == Reply(complete, r.trace[0])
    ensures Roles(r.trace[0].messages) == [System, User, User]
    ensures Embeds(r.trace[0].messages, TextSlot(userData))
    ensures Embeds(r.trace[0].messages, Number(maxTokens))
  {
    var e := Complete(InitiationMessages(userData, maxTokens), maxTokens + Headroom);
    assert TextSlot(userData) in e.messages[1].content.slots;
    assert Number(maxTokens) in e.messages[2].content.slots;
    Step(complete(e.messages, e.maxTokens), [e])
  }

  /**
   `update_taste_profile`: one completion request capped at
   `maxTokens + 20` that shows the model the current profile and the new
   user data; the reply replaces the profile wholesale.
   */
  function UpdateTasteProfile(profile: string, userData: string, maxTokens: int, complete: Completion): (r: Step)
    ensures |r.trace| == 1 && r.trace[0].Complete? && !IsInitiation(r.trace[0])
    ensures r.trace[0].maxTokens == maxTokens + Headroom
    ensures r.profile == Reply(complete, r.trace[0])
    ensures Roles(r.trace[0].messages) == [System, User, User, User]
    ensures r.trace[0].messages[1].content == Content(ExistingProfileSection, [TextSlot(profile)])
    ensures r.trace[0].messages[2].content == Content(UserDataSection, [TextSlot(userData)])
    ensures Embeds(r.trace[0].messages, TextSlot(userData))
    ensures Embeds(r.trace[0].messages, Number(maxTokens))
  {
    var e := Complete(UpdateMessages(profile, userData, maxTokens), maxTokens + Headroom);
    assert TextSlot(userData) in e.messages[2].content.slots;
    assert Number(maxTokens) in e.messages[3].content.slots;
    Step(complete(e.messages, e.maxTokens), [e])
  }

  /**
   `generate_taste_profile`: initiate exactly when the profile is empty,
   update otherwise. Either way the profile becomes the single reply.
   */
  function GenerateTasteProfile(profile: string, userData: string, maxTokens: int, complete: Completion): (r: Step)
    ensures |r.trace| == 1 && r.trace[0].Complete?
    ensures IsInitiation(r.trace[0]) <==> profile == ""
    ensures r.trace[0].maxTokens == maxTokens + Headroom
    ensures r.profile == Reply(complete, r.trace[0])
    ensures Embeds(r.trace[0].messages, TextSlot(userData))
    ensures profile != "" ==>
      |r.trace[0].messages| == 4 && r.trace[0].messages[1].content == Content(ExistingProfileSection, [TextSlot(profile)])
  {
    if profile == "" then InitiateTasteProfile(userData, maxTokens, complete)
    else UpdateTasteProfile(profile, userData, maxTokens, complete)
  }

  /**
   A run of `generate_taste_profile` calls on one bot, one per item of
   `inputs`. Each call sends one completion request under the cap
   `maxTokens + 20`, and the profile left at the end is the last reply, or
   the initial one when nothing ran.
   */
  function GenerateRun(profile: string, inputs: seq<string>, maxTokens: int, complete: Completion): (r: Step)
    ensures |r.trace| == |inputs|
    ensures forall i :: 0 <= i < |inputs| ==> r.trace[i].Complete? && r.trace[i].maxTokens == maxTokens + Headroom
    ensures |inputs| == 0 ==> r.profile == profile
    ensures |inputs| > 0 ==> r.profile == Reply(complete, r.trace[|inputs| - 1])
    decreases |inputs|
  {
    if |inputs| == 0 then Step(profile, [])
    else
      var first := GenerateTasteProfile(profile, inputs[0], maxTokens, complete);
      var rest := GenerateRun(first.profile, inputs[1..], maxTokens, complete);
      var e := first.trace[0];
      assert first.trace == [e] && e.Complete? && e.maxTokens == maxTokens + Headroom;
      var trace := [e] + rest.trace;
      assert forall i :: 1 <= i < |trace| ==> trace[i] == rest.trace[i - 1];
      assert |inputs| == 1 ==> rest.profile == first.profile;
      Step(rest.profile, trace)
  }

  /** The profile in force before the `i`-th call of a run. */
  function ProfileBefore(profile: string, inputs: seq<string>, maxTokens: int, complete: Completion, i: nat): string
    requires i < |inputs|
  {
    if i == 0 then profile else Reply(complete, GenerateRun(profile, inputs, maxTokens, complete).trace[i - 1])
  }

  /**
   For every call sequence, the `i`-th request of a run is exactly the one a
   single generate call sends from the profile then in force, which is the
   previous reply. So each request initiates exactly when that profile is
   empty, and updates from it otherwise.
   */
  lemma {:induction false} GenerateRunStep(profile: string, inputs: seq<string>, maxTokens: int, complete: Completion, i: nat)
    requires i < |inputs|
    ensures GenerateRun(profile, inputs, maxTokens, complete).trace[i]
         == GenerateTasteProfile(ProfileBefore(profile, inputs, maxTokens, complete, i), inputs[i], maxTokens, complete).trace[0]
    ensures IsInitiation(GenerateRun(profile, inputs, maxTokens, complete).trace[i])
        <==> ProfileBefore(profile, inputs, maxTokens, complete, i) == ""
    decreases i
  {
    var first := GenerateTasteProfile(profile, inputs[0], maxTokens, complete);
    var r := GenerateRun(profile, inputs, maxTokens, complete);
    var rest := GenerateRun(first.profile, inputs[1..], maxTokens, complete);
    assert r.trace == first.trace + rest.trace;
    var before := ProfileBefore(profile, inputs, maxTokens, complete, i);
    if i > 0 {
      GenerateRunStep(first.profile, inputs[1..], maxTokens, complete, i - 1);
      assert inputs[1..][i - 1] == inputs[i];
      assert r.trace[i] == rest.trace[i - 1];
      if i > 1 {
        assert r.trace[i - 1] == rest.trace[i - 2];
      } else {
        assert r.trace[0] == first.trace[0];
      }
      assert before == ProfileBefore(first.profile, inputs[1..], maxTokens, complete, i - 1);
    } else {
      assert r.trace[0] == first.trace[0];
    }
    assert r.trace[i] == GenerateTasteProfile(before, inputs[i], maxTokens, complete).trace[0];
  }

  /** The user data built from the top-artist names. */
  const TopArtistsHeading := "Current top artists"

  /** The heading followed directly by the names, one per line. */
  function TopArtistsUserData(names: seq<string>): string
  {
    TopArtistsHeading + Join(names, "\n")
  }

  /**
   The user data starts with the heading with no separator after it. With
   no artists it is the bare heading; otherwise the rest splits back into the
   names when none of them contains a newline.
   */
  lemma TopArtistsUserDataNames(names: seq<string>)
    requires Free(names, '\n')
    ensures |TopArtistsHeading| <= |TopArtistsUserData(names)|
    ensures TopArtistsUserData(names)[..|TopArtistsHeading|] == TopArtistsHeading
    ensures |names| == 0 ==> TopArtistsUserData(names) == TopArtistsHeading
    ensures |names| >= 1 ==> Split(TopArtistsUserData(names)[|TopArtistsHeading|..], '\n') == names
  {
    var d := TopArtistsUserData(names);
    assert d[|TopArtistsHeading|..] == Join(names, "\n");
    if |names| >= 1 {
      SplitJoin(names, '\n');
    }
  }

  /**
   `generate_taste_profile_from_top_artists`: fetch the top-artist names,
   then generate from them as user data.
   */
  function GenerateFromTopArtists(sp: Spotify, profile: string, timeRange: string, limit: int, maxTokens: int, complete: Completion): (r: Step)
    ensures |r.trace| == 2 && r.trace[0] == FetchTopArtists(timeRange, limit)
    ensures r.trace[1].Complete? && r.trace[1].maxTokens == maxTokens + Headroom
    ensures IsInitiation(r.trace[1]) <==> profile == ""
    ensures Embeds(r.trace[1].messages, TextSlot(TopArtistsUserData(TopArtistNames(sp, timeRange, limit).0)))
    ensures r.profile == Reply(complete, r.trace[1])
  {
    var (names, fetched) := TopArtistNames(sp, timeRange, limit);
    var step := GenerateTasteProfile(profile, TopArtistsUserData(names), maxTokens, complete);
    Step(step.profile, fetched + step.trace)
  }

  /**
   The profile is not guaranteed to be non-empty after initiation: when the
   model answers with an empty string, the next generate call initiates
   again rather than updating.
   */
  lemma EmptyReplyInitiatesAgain(first: string, second: string, maxTokens: int, complete: Completion)
    requires complete(InitiationMessages(first, maxTokens), maxTokens + Headroom) == ""
    ensures GenerateRun("", [first, second], maxTokens, complete).trace[1].messages
         == InitiationMessages(second, maxTokens)
  {
  }
}
