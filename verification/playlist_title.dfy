/**
 Playlist naming: one completion request asks for a title line and a
 description line, and the reply is split on newlines with fixed fallbacks.
 */
module PlaylistTitle {
  import opened Text
  import opened JsonValue
  import opened Services

  datatype PlaylistSpec = PlaylistSpec(name: string, description: string)

  /** The name used when the reply's first line is empty. */
  const Untitled := "Untitled"

  /** The token cap of the naming request. */
  const TitleMaxTokens := 400

  /**
   The parsing half of `generate_playlist_name_and_description`: the name is
   the reply up to its first newline, or "Untitled" when that is empty; the
   description is the second line, or empty when there is none; later lines
   are ignored. The branch for an empty split is kept as written, although
   `Split` never returns an empty list.
   */
  function ParseTitleResponse(reply: string): (spec: PlaylistSpec)
    ensures spec.name != ""
    ensures '\n' !in spec.name && '\n' !in spec.description
    ensures spec.name == Untitled || (|spec.name| <= |reply| && reply[..|spec.name|] == spec.name)
    ensures '\n' !in reply ==> spec == PlaylistSpec(if reply == "" then Untitled else reply, "")
  {
    var pieces := Split(reply, '\n');
    var pieces := if |pieces| == 0 then [Untitled, ""] else pieces;
    var pieces := if |pieces| == 1 then pieces + [""] else pieces;
    assert Join(Split(reply, '\n'), "\n") == reply;
    JoinEnds(Split(reply, '\n'), "\n");
    PlaylistSpec(if pieces[0] == "" then Untitled else pieces[0], pieces[1])
  }

  /**
   For a reply made of newline-free lines, the name is the first line (or
   "Untitled" when it is empty) and the description the second line (or
   empty when there is only one).
   */
  lemma {:induction false} ParseTitleLines(lines: seq<string>)
    requires |lines| >= 1
    requires Free(lines, '\n')
    ensures ParseTitleResponse(Join(lines, "\n"))
         == PlaylistSpec(if lines[0] == "" then Untitled else lines[0], if |lines| >= 2 then lines[1] else "")
  {
    SplitJoin(lines, '\n');
  }

  /** "My Title\nMy Desc\nExtra" names the playlist "My Title", described "My Desc". */
  lemma ThreeLineReply()
    ensures ParseTitleResponse("My Title\nMy Desc\nExtra") == PlaylistSpec("My Title", "My Desc")
  {
    var lines := ["My Title", "My Desc", "Extra"];
    assert Join(lines, "\n") == "My Title\nMy Desc\nExtra" by {
      assert Join(lines[2..], "\n") == "Extra";
      assert lines[1..][1..] == lines[2..];
    }
    ParseTitleLines(lines);
  }

  /** An empty reply gives ("Untitled", ""); a single line gives (line, ""). */
  lemma ShortReplies()
    ensures ParseTitleResponse("") == PlaylistSpec(Untitled, "")
    ensures ParseTitleResponse("OnlyTitle") == PlaylistSpec("OnlyTitle", "")
  {
    ParseTitleLines([""]);
    ParseTitleLines(["OnlyTitle"]);
  }

  /** An empty first line still gets a name; the second line is the description. */
  lemma LeadingNewline(desc: string)
    requires '\n' !in desc
    ensures ParseTitleResponse("\n" + desc) == PlaylistSpec(Untitled, desc)
  {
  }

  datatype Titled = Titled(spec: PlaylistSpec, trace: seq<Event>)

  function TitleMessages(prompt: string, tracks: seq<Json>): seq<Message>
  {
    [ Message(System, Content(TitleInstructions, [])),
      Message(User, Content(TitleRequest, [TextSlot(prompt), Tracks(tracks)])) ]
  }

  /**
   `generate_playlist_name_and_description`: one request capped at 400
   tokens that shows the model the prompt and the recommended tracks; its
   reply is parsed into a name and a description.
   */
  function GenerateNameAndDescription(prompt: string, tracks: seq<Json>, complete: Completion): (r: Titled)
    ensures |r.trace| == 1 && r.trace[0].Complete? && r.trace[0].maxTokens == TitleMaxTokens
    ensures Roles(r.trace[0].messages) == [System, User]
    ensures r.trace[0].messages[1].content.slots == [TextSlot(prompt), Tracks(tracks)]
    ensures r.spec == ParseTitleResponse(Reply(complete, r.trace[0]))
    ensures r.spec.name != ""
  {
    var e := Complete(TitleMessages(prompt, tracks), TitleMaxTokens);
    Titled(ParseTitleResponse(complete(e.messages, e.maxTokens)), [e])
  }
}
