# SpotiBot, modelled in Dafny

SpotiBot reads a user's Spotify listening data and asks a chat-completion
model to summarise it into a *taste profile*. It then uses the profile and a
free-text request to ask the model for track recommendations, and turns them
into a new Spotify playlist with a generated name and description.

This project models the deterministic logic around those service calls, and
proves properties of it:

- the taste-profile state machine (`initiate`, `update`, `generate`, and
  generating from top artists);
- the two-request recommendation pipeline and its best-effort validation of
  the model's JSON;
- parsing of the playlist title and description;
- the Spotify wrapper: liked-track paging, top-artist names, query building,
  track search and playlist creation.

Both services are oracles. The chat-completion endpoint is a function from
(messages, token cap) to reply text. `json.loads` is a function from text to
`Parsed`. Python's `str()` of a non-string JSON value is a function `show`.
The Spotify account is a `Spotify` value: the user id, the chain of
saved-track pages, the top artists, the search hits per query, and the id a
new playlist receives. Every request the bot sends is recorded in a trace of
`Event`s, in call order. Each operation returns its result together with its
trace. Prompt wording is abstracted. A message is a role, a template tag and
the values interpolated into it.

Files:

- `text.dfy` (`Text`): Python's `str.split` on one character, `str.join`,
  substring `in`, and the `[:k]` slice.
- `json.dfy` (`JsonValue`): decoded JSON values and Python's `in` on them.
- `services.dfy` (`Services`): roles, messages, events, the completion oracle.
- `spotipy_wrapper.dfy` (`SpotipyWrapper`): `spotibot/spotipy_wrapper.py`.
- `taste_profile.dfy` (`TasteProfile`), `recommendation.dfy`
  (`Recommendation`), `playlist_title.dfy` (`PlaylistTitle`), `spotibot.dfy`
  (`SpotiBot`): the parts of `spotibot/spotibot.py`.

Some behaviours of the code are easy to misread; the model follows the code as
written:

- The playlist name is the reply's first `'\n'`-separated piece, replaced by
  "Untitled" when that piece is empty. An empty first piece gives "Untitled"
  even when a later line is non-empty.
  The `len == 0` branch is kept, although `split` never returns an empty list.
- After `initiate` the profile is exactly the model's reply, which may be
  empty. `TasteProfile.EmptyReplyInitiatesAgain` shows that an
  empty reply makes the next `generate` initiate again.
- The top-artists user data is `"Current top artists"` followed directly by
  the names joined with `"\n"`. There is no colon or newline after the
  heading, so the first name runs into it. The model keeps this as written.
- Python's `in` is applied to each decoded entry according to its type. On an
  object it tests keys. On a string it tests for a substring, so the string
  `"track and artist"` passes. On a list it tests membership. On numbers,
  booleans and `null` it raises, and the same `except` catches that.
  A string entry that passes validation later makes `.items()` raise
  `AttributeError` in the wrapper, before any search. That outcome is the
  `Raised` case.

## Model

| member | source | states |
|---|---|---|
| `TasteProfile.InitiateTasteProfile` | spotibot/spotibot.py:16-43 | one completion request with roles system, user, user; it embeds the user data and the requested length, and its cap is `max_tokens + 20`; the new profile is exactly the reply |
| `TasteProfile.UpdateTasteProfile` | spotibot/spotibot.py:45-79 | one request with roles system, user, user, user; the second message holds the previous profile and the third the user data; cap `max_tokens + 20`; the reply replaces the profile wholesale |
| `TasteProfile.GenerateTasteProfile` | spotibot/spotibot.py:81-85 | the request initiates if and only if the profile is empty; otherwise the previous profile is sent; the profile becomes the reply |
| `TasteProfile.GenerateRun` | spotibot/spotibot.py:81-85 | repeated generate calls on one bot send one request per call, each capped at `max_tokens + 20`, and the final profile is the last reply (or the initial one after no calls) |
| `TasteProfile.GenerateRunStep` | spotibot/spotibot.py:81-85 | for every call sequence, the i-th request is the one a single generate call sends from the profile then in force (the previous reply), so it initiates exactly when that profile is empty |
| `TasteProfile.EmptyReplyInitiatesAgain` | spotibot/spotibot.py:41-43 | when the initiation reply is empty, the next generate call initiates again instead of updating |
| `TasteProfile.TopArtistsUserDataNames` | spotibot/spotibot.py:89 | for newline-free names, the user data begins with "Current top artists" with no separator; with no artists it is the bare heading, and otherwise the rest splits on newlines back into the artist names |
| `TasteProfile.GenerateFromTopArtists` | spotibot/spotibot.py:87-90 | one top-artists fetch with the given range and limit, then one generate request embedding the built user data; initiation iff the profile is empty; the profile becomes the reply |
| `Recommendation.Validate` | spotibot/spotibot.py:154-161 | the result is either the decoded array or empty; every kept entry has both "track" and "artist"; a decoded array whose entries all pass is kept unchanged, extra keys included |
| `Recommendation.RecommendTracks` | spotibot/spotibot.py:92-161 | exactly two requests under the same cap; the first embeds the profile, prompt and track count; the second embeds the first reply verbatim; a non-JSON reply gives an empty list; otherwise the result is the validated decoding |
| `Recommendation.SingleTrackKept` | spotibot/spotibot.py:154-161 | `[{"track": "A", "artist": "B"}]` yields exactly that one entry |
| `Recommendation.TrackObjectsKept` | spotibot/spotibot.py:154-161 | any list of well-formed track objects is returned whole, so five objects give five recommendations |
| `Recommendation.MissingKeyDiscardsAll` | spotibot/spotibot.py:157-159 | any list with an entry, at any position, that lacks "track" or "artist" under Python's `in` validates to the empty list |
| `Recommendation.MissingArtistDiscardsAll` | spotibot/spotibot.py:157-159 | the instance `[good, {"track": "A"}]`: the entry without "artist" empties the whole result |
| `Recommendation.StringEntriesPass` | spotibot/spotibot.py:157 | any list of bare strings that each contain both "track" and "artist" as substrings passes the check whole |
| `Recommendation.StringEntryPasses` | spotibot/spotibot.py:157 | the instance `["track and artist"]` passes the check unchanged |
| `JsonValue.PyInCases` | spotibot/spotibot.py:157 | Python's `k in v` per decoded type: on an object, some member has key `k`; on a string, `k` occurs at some position; on a list, some item is the string `k`; on a number, boolean or null it is false, as the `TypeError` lands in the same `except` |
| `JsonValue.TrackObjectPasses` | spotibot/spotibot.py:134-147 | an object of the requested `{track, artist}` shape always passes the check |
| `PlaylistTitle.ParseTitleResponse` | spotibot/spotibot.py:186-197 | the name is never empty and is "Untitled" or a prefix of the reply; neither field contains a newline; a reply without a newline gives (reply or "Untitled", "") |
| `PlaylistTitle.ParseTitleLines` | spotibot/spotibot.py:186-197 | for newline-free lines, the name is the first line (or "Untitled" if it is empty) and the description is the second line (or ""); later lines are ignored |
| `PlaylistTitle.ThreeLineReply` | spotibot/spotibot.py:186-197 | "My Title\nMy Desc\nExtra" gives ("My Title", "My Desc") |
| `PlaylistTitle.ShortReplies` | spotibot/spotibot.py:186-192 | "" gives ("Untitled", "") and "OnlyTitle" gives ("OnlyTitle", "") |
| `PlaylistTitle.LeadingNewline` | spotibot/spotibot.py:191-192 | a reply with an empty first line gets the name "Untitled" and keeps its second line as the description |
| `PlaylistTitle.GenerateNameAndDescription` | spotibot/spotibot.py:163-198 | one request capped at 400 with roles system, user, embedding the prompt and the track list; the name and description are the parsed reply, with a non-empty name |
| `SpotiBot.GeneratePlaylist` | spotibot/spotibot.py:200-203 | the trace starts with the two recommendation requests under `max_tokens` and the naming request capped at 400, followed by the wrapper's calls; the outcome is the wrapper's outcome for the parsed name and description and the recommended tracks; a returned id is the new playlist's, and without one no playlist is created |
| `SpotiBot.MalformedReplyCreatesNothing` | spotibot/spotibot.py:155-159 | a non-JSON structuring reply ends in no playlist, after exactly three completion requests and no creation call |
| `SpotiBot.CreatedPlaylistIsNamed` | spotibot/spotibot.py:191-203 | every playlist the pipeline creates is public and has a non-empty name |
| `SpotiBot.CreationCarriesName` | spotibot/spotipy_wrapper.py:172-174 | every creation request the wrapper sends is public, non-collaborative and carries the given name |
| `SpotiBot.StringEntryRaises` | spotibot/spotipy_wrapper.py:148-151 | for any decoded list holding a string entry at any position, if validation keeps the list then playlist assembly raises and sends no request |
| `SpotiBot.TrackAndArtistStringRaises` | spotibot/spotipy_wrapper.py:148-151 | the instance `["track and artist"]` passes validation and then makes playlist assembly raise before any search |
| `SpotipyWrapper.GetLikedTracks` | spotibot/spotipy_wrapper.py:57-91 | the first page is fetched, and further pages only through `next`; paging stops at the first page boundary where the row count reaches the limit, or when the chain ends; the rows are cut with Python's `[:limit]`, then filtered by date; for a limit of 0 or more there are at most `limit` rows, and every row was liked on or after the start day |
| `SpotipyWrapper.GatherLikedRows` | spotibot/spotipy_wrapper.py:60-82 | the first page is fetched and each further page through `next`; paging stops at the first page boundary where the row count reaches the limit, or when the chain ends; the gathered rows are cut with `[:limit]` |
| `SpotipyWrapper.RowOf` | spotibot/spotipy_wrapper.py:65-78 | a row carries the item's name, release date and like day; its artists cell is empty without artists, and otherwise starts with the first name and has the names' total length plus two characters per further name |
| `SpotipyWrapper.SinceDay` | spotibot/spotipy_wrapper.py:91 | kept rows were liked on or after the start day, every row liked then appears in the result, and there are no more rows than in the input; that no row is added is stated by `SinceDayCounts` |
| `SpotipyWrapper.SinceDayCounts` | spotibot/spotipy_wrapper.py:91 | each row liked on or after the start day is kept as many times as it occurs, so equal rows from separate likes all survive; no other row is kept, so the result is a sub-multiset of the input and no row is added |
| `SpotipyWrapper.SinceDayAppend` | spotibot/spotipy_wrapper.py:91 | filtering a concatenation of rows concatenates the filtered parts |
| `SpotipyWrapper.SinceDayOne` | spotibot/spotipy_wrapper.py:91 | a single row is kept exactly when it was liked on or after the start day; with the append lemma this fixes the filter's result |
| `SpotipyWrapper.SinceDayKeepsOrder` | spotibot/spotipy_wrapper.py:91 | the date filter preserves the order of the kept rows |
| `SpotipyWrapper.ArtistsCell` | spotibot/spotipy_wrapper.py:70 | the artists cell is the names joined with ", "; for comma-free names, splitting it on "," gives back the first name, then each later name with one leading space |
| `SpotipyWrapper.TopArtistNames` | spotibot/spotipy_wrapper.py:110-111 | one top-artists request; the names have the items' length and order |
| `SpotipyWrapper.Queries` | spotibot/spotipy_wrapper.py:148-151 | any non-object entry raises `AttributeError` before searching; otherwise exactly one query per entry, in input order |
| `SpotipyWrapper.QueryTokens` | spotibot/spotipy_wrapper.py:149 | a query is the space-join of `key:value` tokens in insertion order, and it splits back into them when no token holds a space |
| `SpotipyWrapper.TrackObjectQuery` | spotibot/spotipy_wrapper.py:149 | a `{track, artist}` object gives the query `track:<name> artist:<artist>`, the format of `track:Imagine artist:John Lennon` |
| `SpotipyWrapper.SearchTracks` | spotibot/spotipy_wrapper.py:127-132 | exactly one limit-1 track search per query, in order; at most one URI per query |
| `SpotipyWrapper.SearchTracksEmpty` | spotibot/spotipy_wrapper.py:127-132 | no URI is resolved if and only if no query has a hit |
| `SpotipyWrapper.SearchTracksAppend` | spotibot/spotipy_wrapper.py:127-132 | resolving a concatenation of query lists concatenates the resolved URIs, so misses are skipped and order is kept |
| `SpotipyWrapper.SearchTracksOne` | spotibot/spotipy_wrapper.py:129-131 | a single query resolves to its first hit's URI, or to nothing when it has no hit |
| `SpotipyWrapper.CreatePlaylistWith` | spotibot/spotipy_wrapper.py:172-174 | a current-user lookup, then one public, non-collaborative creation with the given name and description, then one batch add of all URIs to the new playlist; returns its id |
| `SpotipyWrapper.CreatePlaylistFromJson` | spotibot/spotipy_wrapper.py:194-197 | it raises exactly when the query list raises, and then sends nothing; it returns no playlist exactly when no query hits, and then its trace is exactly the searches, one per query, with no creation; otherwise it searches and then creates the playlist, returning its id |
| `SpotipyWrapper.NoHitsCreatesNothing` | spotibot/spotipy_wrapper.py:194-196 | when every entry is an object and no query finds a track, the result is no playlist and the trace is exactly one limit-1 track search per entry, in entry order, for that entry's query |
| `Text.JoinEnds` | spotibot/spotipy_wrapper.py:70 | `sep.join` of no pieces is ""; otherwise the result starts with the first piece and ends with the last, and its length is the pieces' total plus one separator per adjacent pair |
| `Text.SubstringSomewhere` | spotibot/spotibot.py:157 | the substring test behind `in` on a string holds exactly when the key occurs at some position |
| `Text.Split` | spotibot/spotibot.py:186 | `split('\n')` never returns an empty list, no piece contains the separator, and joining the pieces gives back the input |
| `Text.SplitJoin` | spotibot/spotibot.py:186 | splitting a join of separator-free pieces recovers the pieces |
| `Text.PyPrefix` | spotibot/spotipy_wrapper.py:81 | `[:k]` keeps `min(k, n)` elements for k of 0 or more, and `max(n + k, 0)` for negative k; the result is a prefix |

## Left out

- `spotibot/openai_wrapper.py` is reduced to its output. The completion
  endpoint is an oracle function, and transport or authentication failures,
  which propagate in the source, are not modelled.
- OAuth and environment-variable configuration (`spotibot/spotipy_wrapper.py:12-15`,
  `36-39`) and API-key handling are not modelled. They are configuration, not logic.
- Objects with repeated keys are not excluded from decoded JSON. `json.loads`
  keeps one entry per key: the first key's position with the last value.
  The model keeps every member, so for such an object the query has one
  token per member (`"a:1 a:2"` where Python builds `"a:2"`).
- The completion oracle is a function, so identical requests always get
  identical replies. The real endpoint samples its output. No proved
  property relies on two identical requests.
- `delete_playlist` is left out. It is a single foreign call with no logic of its own.
- `json.loads` is an oracle. A top-level JSON value that is not an array
  (an object, a string, a number) is outside the model, because iterating it
  in Python gives behaviour the bot does not rely on. JSON numbers are
  integers. Floats are not modelled.
- Python's `str()` of non-string JSON values (numbers, booleans, `None`,
  nested lists and dicts) is the oracle `show`. Only strings are rendered
  concretely.
- The exact prompt wording and whitespace are not modelled. Messages carry a
  template tag and the interpolated values.
- Dates are day numbers. `datetime.utcnow`, `timedelta` and `strptime` are
  replaced by a `today` parameter and a per-item `addedDay`. The pandas
  DataFrame is a sequence of `Row`s.
- Malformed service answers (missing keys, which raise `KeyError`), Spotify's
  limits on batch sizes, and the service's own paging of search results are
  not modelled.
- Default argument values (`max_tokens=100`, `num_tracks=10`, and so on) are
  not modelled. Every operation takes them explicitly.
- `assert` statements vanish under `python -O`. That mode is not modelled.
- The `tests/` files run against live services and are not modelled.
