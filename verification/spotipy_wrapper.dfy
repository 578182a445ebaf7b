/**
 The bot's wrapper around the Spotify Web API: liked tracks, top artists,
 track search and playlist creation. Every Spotify answer comes from the
 `Spotify` oracle value; every request is recorded as an event.
 */
module SpotipyWrapper {
  import opened Text
  import opened JsonValue
  import opened Services

  /** A saved-track item as the library endpoint reports it; the day is a day number. */
  datatype SavedItem = SavedItem(name: string, artistNames: seq<string>, releaseDate: string, addedDay: int)

  /** One row of the liked-tracks table: name, artists, release date, day liked. */
  datatype Row = Row(trackName: string, artists: string, releaseDate: string, dateLiked: int)

  /** A top-artist item; only its name is read. */
  datatype Artist = Artist(name: string)

  /**
   What the Spotify account answers. `savedPages` is the chain of saved-track
   pages: the first request yields the first page (an empty chain stands for
   an empty, falsy answer), and a page carries a `next` link exactly when
   another page follows it. `search` gives the track URIs that match a query,
   best first. `newPlaylistId` is the id the service assigns to a created
   playlist.
   */
  datatype Spotify = Spotify(
    userId: string,
    savedPages: seq<seq<SavedItem>>,
    topArtists: (string, int) -> seq<Artist>,
    search: string -> seq<string>,
    newPlaylistId: string)

  // ---------------------------------------------------------------------
  // Liked tracks
  // ---------------------------------------------------------------------

  /**
   The table row for one saved item: name, artists, release date, day liked.
   The artists cell joins the names with ", ": it is empty for a track
   without artists, and otherwise starts with the first name and is two
   characters longer per further name than the names together.
   */
  function RowOf(item: SavedItem): (r: Row)
    ensures r.trackName == item.name && r.releaseDate == item.releaseDate && r.dateLiked == item.addedDay
    ensures |item.artistNames| == 0 ==> r.artists == ""
    ensures |item.artistNames| >= 1 ==> item.artistNames[0] <= r.artists
    ensures |item.artistNames| >= 1 ==>
      |r.artists| == TotalLength(item.artistNames) + 2 * (|item.artistNames| - 1)
  {
    JoinEnds(item.artistNames, ", ");
    Row(item.name, Join(item.artistNames, ", "), item.releaseDate, item.addedDay)
  }

  /** The pieces of `", ".join(names)` split on ",": each name after the first keeps its leading space. */
  function CommaPieces(names: seq<string>): (ps: seq<string>)
    requires |names| >= 1
    ensures |ps| == |names|
  {
    [names[0]] + seq(|names| - 1, k requires 0 <= k < |names| - 1 => " " + names[k + 1])
  }

  lemma {:induction false} JoinCommaSpace(names: seq<string>)
    requires |names| >= 1
    ensures Join(names, ", ") == Join(CommaPieces(names), ",")
    decreases |names|
  {
    if |names| > 1 {
      JoinCommaSpace(names[1..]);
      var ps := CommaPieces(names);
      var tail := CommaPieces(names[1..]);
      assert ps[1..] == [" " + tail[0]] + tail[1..];
      JoinShiftSpace(tail);
      assert Join(ps, ",") == names[0] + "," + Join(ps[1..], ",");
    }
  }

  lemma {:induction false} JoinShiftSpace(ps: seq<string>)
    requires |ps| >= 1
    ensures Join([" " + ps[0]] + ps[1..], ",") == " " + Join(ps, ",")
  {
  }

  /**
   The artists cell is the names joined with ", ": when no name holds a
   comma, splitting the cell on "," gives back the first name and each later
   name behind one space.
   */
  lemma ArtistsCell(item: SavedItem)
    requires |item.artistNames| >= 1
    requires Free(item.artistNames, ',')
    ensures Split(RowOf(item).artists, ',') == CommaPieces(item.artistNames)
  {
    var names := item.artistNames;
    JoinCommaSpace(names);
    var ps := CommaPieces(names);
    forall k | 0 <= k < |ps|
      ensures ',' !in ps[k]
    {
      if k > 0 {
        assert ps[k] == " " + names[k];
      }
    }
    SplitJoin(ps, ',');
  }

  function RowsOf(items: seq<SavedItem>): (rows: seq<Row>)
    ensures |rows| == |items|
    ensures forall k :: 0 <= k < |items| ==> rows[k] == RowOf(items[k])
  {
    seq(|items|, k requires 0 <= k < |items| => RowOf(items[k]))
  }

  /** The rows of a run of pages, page after page. */
  function RowsOfPages(pages: seq<seq<SavedItem>>): seq<Row>
  {
    if |pages| == 0 then [] else RowsOfPages(pages[..|pages| - 1]) + RowsOf(pages[|pages| - 1])
  }

  /** `a` is `b` with some elements left out, order kept. */
  predicate IsSubsequence<T(==)>(a: seq<T>, b: seq<T>)
    decreases |b|
  {
    |a| == 0 || (|b| > 0 && ((a[0] == b[0] && IsSubsequence(a[1..], b[1..])) || IsSubsequence(a, b[1..])))
  }

  /**
   The pandas filter `df[df['Date Liked'] >= start]`: the rows liked on or
   after `start`, in their original order.
   */
  function SinceDay(rows: seq<Row>, start: int): (kept: seq<Row>)
    ensures |kept| <= |rows|
    ensures forall k :: 0 <= k < |kept| ==> kept[k].dateLiked >= start
    ensures forall k :: 0 <= k < |rows| && rows[k].dateLiked >= start ==> rows[k] in kept
  {
    if |rows| == 0 then []
    else (if rows[0].dateLiked >= start then [rows[0]] else []) + SinceDay(rows[1..], start)
  }

  /**
   Each row liked on or after `start` is kept as many times as it occurs,
   so equal rows from two like events both survive; no other row is kept,
   so the result is a sub-multiset of the input.
   */
  lemma {:induction false} SinceDayCounts(rows: seq<Row>, start: int)
    ensures forall x :: multiset(SinceDay(rows, start))[x] == if x.dateLiked >= start then multiset(rows)[x] else 0
    ensures multiset(SinceDay(rows, start)) <= multiset(rows)
    decreases |rows|
  {
    if |rows| > 0 {
      SinceDayCounts(rows[1..], start);
      assert rows == [rows[0]] + rows[1..];
    }
  }

  /** Filtering two runs of rows one after the other filters their concatenation. */
  lemma {:induction false} SinceDayAppend(a: seq<Row>, b: seq<Row>, start: int)
    ensures SinceDay(a + b, start) == SinceDay(a, start) + SinceDay(b, start)
    decreases |a|
  {
    if |a| == 0 {
      assert a + b == b;
    } else {
      var head := if a[0].dateLiked >= start then [a[0]] else [];
      assert (a + b)[0] == a[0];
      assert (a + b)[1..] == a[1..] + b;
      assert SinceDay(a + b, start) == head + SinceDay(a[1..] + b, start);
      assert SinceDay(a, start) == head + SinceDay(a[1..], start);
      SinceDayAppend(a[1..], b, start);
    }
  }

  /** A single row is kept exactly when it was liked on or after `start`. */
  lemma SinceDayOne(row: Row, start: int)
    ensures SinceDay([row], start) == if row.dateLiked >= start then [row] else []
  {
  }

  /** The date filter keeps the surviving rows in their original order. */
  lemma {:induction false} SinceDayKeepsOrder(rows: seq<Row>, start: int)
    ensures IsSubsequence(SinceDay(rows, start), rows)
    decreases |rows|
  {
    if |rows| > 0 {
      SinceDayKeepsOrder(rows[1..], start);
      var kept := SinceDay(rows, start);
      if rows[0].dateLiked >= start {
        assert kept[0] == rows[0] && kept[1..] == SinceDay(rows[1..], start);
      } else {
        assert kept == SinceDay(rows[1..], start);
        if |kept| > 0 {
          assert IsSubsequence(kept, rows[1..]);
        }
      }
    }
  }

  /**
   Paging stops after `read` pages: either the chain ran out, or the rows
   gathered first reached the limit at the end of page `read` and at no
   earlier page boundary.
   */
  predicate StopsAfter(pages: seq<seq<SavedItem>>, limit: int, read: nat)
    requires 1 <= read <= |pages|
  {
    && (read == |pages| || |RowsOfPages(pages[..read])| >= limit)
    && forall j :: 1 <= j < read ==> |RowsOfPages(pages[..j])| < limit
  }

  lemma RowsOfPagesSnoc(pages: seq<seq<SavedItem>>, i: nat)
    requires i < |pages|
    ensures RowsOfPages(pages[..i + 1]) == RowsOfPages(pages[..i]) + RowsOf(pages[i])
  {
    assert pages[..i + 1][..i] == pages[..i];
  }

  /**
   The paging loop of `get_liked_tracks`: gather rows page by page until a
   whole page brings the count to `trackLimit` or the chain ends, then cut
   them to Python's `[:trackLimit]`.
   */
  method GatherLikedRows(pages: seq<seq<SavedItem>>, trackLimit: int)
    returns (acc: seq<Row>, trace: seq<Event>)
    ensures |trace| >= 1 && trace[0] == FetchSavedTracks
    ensures forall j :: 1 <= j < |trace| ==> trace[j] == FetchNextPage
    ensures |pages| == 0 ==> acc == [] && |trace| == 1
    ensures |pages| > 0 ==>
      && |trace| <= |pages|
      && StopsAfter(pages, trackLimit, |trace|)
      && acc == PyPrefix(RowsOfPages(pages[..|trace|]), trackLimit)
  {
    trace := [FetchSavedTracks];
    acc := [];
    var read := 0;
    var done := |pages| == 0;
    while !done
      invariant 0 <= read <= |pages|
      invariant !done ==> read < |pages| && |trace| == read + 1
      invariant done && |pages| > 0 ==> 1 <= read && |trace| == read
      invariant done && |pages| == 0 ==> acc == [] && |trace| == 1
      invariant trace[0] == FetchSavedTracks
      invariant forall j :: 1 <= j < |trace| ==> trace[j] == FetchNextPage
      invariant forall j :: 1 <= j <= read && (j < read || !done) ==> |RowsOfPages(pages[..j])| < trackLimit
      invariant !done ==> acc == RowsOfPages(pages[..read])
      invariant done && |pages| > 0 ==>
        && (read == |pages| || |RowsOfPages(pages[..read])| >= trackLimit)
        && acc == PyPrefix(RowsOfPages(pages[..read]), trackLimit)
      decreases |pages| - read, !done
    {
      RowsOfPagesSnoc(pages, read);
      acc := acc + RowsOf(pages[read]);
      read := read + 1;
      if |acc| >= trackLimit {
        acc := PyPrefix(acc, trackLimit);
        done := true;
      } else if read < |pages| {
        trace := trace + [FetchNextPage];
      } else {
        done := true;
      }
    }
  }

  /**
   `get_liked_tracks`: the gathered rows, cut to `[:trackLimit]`, then only
   those liked on or after `today - timeRangeDays`.
   */
  method GetLikedTracks(sp: Spotify, today: int, timeRangeDays: int, trackLimit: int)
    returns (rows: seq<Row>, trace: seq<Event>)
    ensures |trace| >= 1 && trace[0] == FetchSavedTracks
    ensures forall j :: 1 <= j < |trace| ==> trace[j] == FetchNextPage
    ensures |sp.savedPages| == 0 ==> rows == [] && |trace| == 1
    ensures |sp.savedPages| > 0 ==>
      && |trace| <= |sp.savedPages|
      && StopsAfter(sp.savedPages, trackLimit, |trace|)
      && rows == SinceDay(PyPrefix(RowsOfPages(sp.savedPages[..|trace|]), trackLimit), today - timeRangeDays)
    ensures trackLimit >= 0 ==> |rows| <= trackLimit
    ensures forall k :: 0 <= k < |rows| ==> rows[k].dateLiked >= today - timeRangeDays
  {
    var acc;
    acc, trace := GatherLikedRows(sp.savedPages, trackLimit);
    rows := SinceDay(acc, today - timeRangeDays);
  }

  /** `get_current_user_top_artist_names`: the names of the returned items, in order. */
  function TopArtistNames(sp: Spotify, timeRange: string, limit: int): (r: (seq<string>, seq<Event>))
    ensures r.1 == [FetchTopArtists(timeRange, limit)]
    ensures |r.0| == |sp.topArtists(timeRange, limit)|
    ensures forall k :: 0 <= k < |r.0| ==> r.0[k] == sp.topArtists(timeRange, limit)[k].name
  {
    var items := sp.topArtists(timeRange, limit);
    (seq(|items|, k requires 0 <= k < |items| => items[k].name), [FetchTopArtists(timeRange, limit)])
  }

  // ---------------------------------------------------------------------
  // Track search
  // ---------------------------------------------------------------------

  /** Python's `f"{value}"` of a decoded value: a string as is, anything else via `show`. */
  function Str(v: Json, show: Json -> string): string
  {
    if v.JString? then v.s else show(v)
  }

  /** The `key:value` tokens of an object's members, in insertion order. */
  function Tokens(fields: seq<(string, Json)>, show: Json -> string): (ts: seq<string>)
    ensures |ts| == |fields|
    ensures forall k :: 0 <= k < |fields| ==> ts[k] == fields[k].0 + ":" + Str(fields[k].1, show)
  {
    seq(|fields|, k requires 0 <= k < |fields| => fields[k].0 + ":" + Str(fields[k].1, show))
  }

  /** The search query built from one track object. */
  function Query(fields: seq<(string, Json)>, show: Json -> string): string
  {
    Join(Tokens(fields, show), " ")
  }

  /** When no token holds a space, the query splits back into its tokens. */
  lemma QueryTokens(fields: seq<(string, Json)>, show: Json -> string)
    requires |fields| >= 1
    requires Free(Tokens(fields, show), ' ')
    ensures Split(Query(fields, show), ' ') == Tokens(fields, show)
  {
    SplitJoin(Tokens(fields, show), ' ');
  }

  /** The query for a `{"track", "artist"}` object is `track:<name> artist:<artist>`. */
  lemma TrackObjectQuery(track: string, artist: string, show: Json -> string)
    ensures Query(TrackObject(track, artist).fields, show) == "track:" + track + " artist:" + artist
  {
    var ts := Tokens(TrackObject(track, artist).fields, show);
    assert ts[0] == "track:" + track && ts[1] == "artist:" + artist;
    assert ts[1..] == ["artist:" + artist];
    assert Join(ts, " ") == ts[0] + " " + Join(ts[1..], " ");
  }

  /** A Python call that either raised `AttributeError` or gave back a value. */
  datatype Attempt<T> = AttributeError | Done(value: T)

  /**
   The query list of `search_tracks_from_json`: one query per entry, in
   order. `.items()` raises on an entry that is not an object, and the list
   comprehension raises before any search is sent.
   */
  function Queries(tracks: seq<Json>, show: Json -> string): (r: Attempt<seq<string>>)
    ensures r.AttributeError? <==> exists k :: 0 <= k < |tracks| && !tracks[k].JObject?
    ensures r.Done? ==> |r.value| == |tracks|
    ensures r.Done? ==> forall k :: 0 <= k < |tracks| ==> r.value[k] == Query(tracks[k].fields, show)
  {
    if exists k :: 0 <= k < |tracks| && !tracks[k].JObject? then AttributeError
    else Done(seq(|tracks|, k requires 0 <= k < |tracks| => Query(tracks[k].fields, show)))
  }

  datatype Resolved = Resolved(uris: seq<string>, trace: seq<Event>)

  /** Some query of the list has at least one hit. */
  predicate AnyHit(queries: seq<string>, search: string -> seq<string>)
  {
    |queries| > 0 && (|search(queries[0])| > 0 || AnyHit(queries[1..], search))
  }

  /** `AnyHit` holds exactly when some position of the list has a hit. */
  lemma {:induction false} AnyHitSomewhere(queries: seq<string>, search: string -> seq<string>)
    ensures AnyHit(queries, search) <==> exists k :: 0 <= k < |queries| && |search(queries[k])| > 0
    decreases |queries|
  {
    if |queries| > 0 {
      AnyHitSomewhere(queries[1..], search);
      assert forall k :: 0 <= k < |queries| - 1 ==> queries[1..][k] == queries[k + 1];
      if !AnyHit(queries, search) {
        forall k | 0 <= k < |queries|
          ensures |search(queries[k])| == 0
        {
          if k > 0 {
            assert queries[k] == queries[1..][k - 1];
          }
        }
      }
    }
  }

  /**
   `search_tracks`: one limit-1 track search per query, in order, keeping
   the first hit's URI and skipping queries without hits.
   */
  function SearchTracks(queries: seq<string>, search: string -> seq<string>): (r: Resolved)
    ensures |r.trace| == |queries|
    ensures forall k :: 0 <= k < |queries| ==> r.trace[k] == Search(queries[k], "track", 1)
    ensures |r.uris| <= |queries|
  {
    if |queries| == 0 then Resolved([], [])
    else
      var hits := search(queries[0]);
      var rest := SearchTracks(queries[1..], search);
      Resolved((if |hits| > 0 then [hits[0]] else []) + rest.uris, [Search(queries[0], "track", 1)] + rest.trace)
  }

  /** Nothing resolves exactly when no query has a hit. */
  lemma {:induction false} SearchTracksEmpty(queries: seq<string>, search: string -> seq<string>)
    ensures |SearchTracks(queries, search).uris| == 0 <==> !AnyHit(queries, search)
    decreases |queries|
  {
    if |queries| > 0 {
      SearchTracksEmpty(queries[1..], search);
    }
  }

  /** Searching two query lists one after the other resolves the concatenation. */
  lemma {:induction false} SearchTracksAppend(a: seq<string>, b: seq<string>, search: string -> seq<string>)
    ensures SearchTracks(a + b, search).uris == SearchTracks(a, search).uris + SearchTracks(b, search).uris
    decreases |a|
  {
    if |a| == 0 {
      assert a + b == b;
    } else {
      assert (a + b)[0] == a[0];
      assert (a + b)[1..] == a[1..] + b;
      SearchTracksAppend(a[1..], b, search);
    }
  }

  /** A single query resolves to its first hit, or to nothing when it has none. */
  lemma SearchTracksOne(q: string, search: string -> seq<string>)
    ensures SearchTracks([q], search).uris == if |search(q)| > 0 then [search(q)[0]] else []
  {
  }

  // ---------------------------------------------------------------------
  // Playlist creation
  // ---------------------------------------------------------------------

  datatype Created = Created(id: string, trace: seq<Event>)

  /**
   `create_playlist`: look up the current user, create one public,
   non-collaborative playlist under that user, then add every URI in one
   batch to the new playlist and return its id.
   */
  function CreatePlaylistWith(sp: Spotify, name: string, description: string, uris: seq<string>): (r: Created)
    ensures |r.trace| == 3 && r.trace[0] == FetchCurrentUser
    ensures r.trace[1].CreatePlaylist? && r.trace[1].user == sp.userId
    ensures r.trace[1].name == name && r.trace[1].description == description
    ensures r.trace[1].isPublic && !r.trace[1].collaborative
    ensures r.trace[2] == AddItems(r.id, uris)
    ensures r.id == sp.newPlaylistId
  {
    Created(sp.newPlaylistId, [
      FetchCurrentUser,
      CreatePlaylist(sp.userId, name, true, false, description),
      AddItems(sp.newPlaylistId, uris)])
  }

  /** What `create_playlist_from_json` ends with. */
  datatype PlaylistOutcome = Raised | NoPlaylist | PlaylistId(id: string)

  datatype Assembled = Assembled(outcome: PlaylistOutcome, trace: seq<Event>)

  /**
   `create_playlist_from_json`: build the queries, resolve them, and create
   the playlist only when at least one URI was found; otherwise answer
   `None` without creating anything.
   */
  function CreatePlaylistFromJson(sp: Spotify, show: Json -> string, name: string, description: string, tracks: seq<Json>): (r: Assembled)
    ensures r.outcome.Raised? <==> Queries(tracks, show).AttributeError?
    ensures r.outcome.Raised? ==> r.trace == []
    ensures r.outcome.NoPlaylist? <==> Queries(tracks, show).Done? && !AnyHit(Queries(tracks, show).value, sp.search)
    ensures !r.outcome.PlaylistId? ==> NoPlaylistCreated(r.trace)
    ensures r.outcome.NoPlaylist? ==> r.trace == SearchTracks(Queries(tracks, show).value, sp.search).trace
    ensures r.outcome.PlaylistId? ==>
      var resolved := SearchTracks(Queries(tracks, show).value, sp.search);
      && |resolved.uris| > 0
      && r.outcome.id == sp.newPlaylistId
      && r.trace == resolved.trace + CreatePlaylistWith(sp, name, description, resolved.uris).trace
  {
    match Queries(tracks, show)
    case AttributeError => Assembled(Raised, [])
    case Done(queries) =>
      var resolved := SearchTracks(queries, sp.search);
      SearchTracksEmpty(queries, sp.search);
      if |resolved.uris| == 0 then
        Assembled(NoPlaylist, resolved.trace)
      else
        var created := CreatePlaylistWith(sp, name, description, resolved.uris);
        Assembled(PlaylistId(created.id), resolved.trace + created.trace)
  }

  /**
   When every entry is an object and no query finds a track, nothing is
   created and only searches are sent: one per entry.
   */
  lemma NoHitsCreatesNothing(sp: Spotify, show: Json -> string, name: string, description: string, tracks: seq<Json>)
    requires forall k :: 0 <= k < |tracks| ==> tracks[k].JObject? && |sp.search(Query(tracks[k].fields, show))| == 0
    ensures CreatePlaylistFromJson(sp, show, name, description, tracks).outcome == NoPlaylist
    ensures |CreatePlaylistFromJson(sp, show, name, description, tracks).trace| == |tracks|
    ensures forall k :: 0 <= k < |tracks| ==>
      CreatePlaylistFromJson(sp, show, name, description, tracks).trace[k] == Search(Query(tracks[k].fields, show), "track", 1)
    ensures NoPlaylistCreated(CreatePlaylistFromJson(sp, show, name, description, tracks).trace)
  {
    var qs := Queries(tracks, show);
    assert qs.Done?;
    AnyHitSomewhere(qs.value, sp.search);
  }
}
