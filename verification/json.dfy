/**
 The JSON values the bot receives from the language model once `json.loads`
 has run, and Python's `in` operator applied to them. Parsing itself is an
 oracle: the model only sees its outcome.
 */
module JsonValue {
  import opened Text

  /**
   A decoded JSON value. Numbers are kept as integers; an object keeps its
   members in insertion order, which for distinct keys is the order
   Python's `dict.items()` yields them in. Repeated keys, which `json.loads`
   merges into one entry, are not excluded.
   */
  datatype Json =
    | JNull
    | JBool(b: bool)
    | JNumber(n: int)
    | JString(s: string)
    | JArray(items: seq<Json>)
    | JObject(fields: seq<(string, Json)>)

  /**
   What `json.loads` gave back for the structuring reply: either it raised,
   or it produced a top-level array.
   */
  datatype Parsed = NotJson | TopArray(items: seq<Json>)

  /** The keys of an object's members, in order. */
  function Keys(fields: seq<(string, Json)>): (ks: seq<string>)
    ensures |ks| == |fields|
    ensures forall i :: 0 <= i < |fields| ==> ks[i] == fields[i].0
  {
    if |fields| == 0 then [] else [fields[0].0] + Keys(fields[1..])
  }

  /**
   Python's `k in v` for a decoded value: a key test on a dict, a substring
   test on a str, an equality test on the members of a list. On numbers,
   booleans and None the operator raises `TypeError`; the bot catches that
   with the same handler as a failed check, so it reads as `false` here.
   */
  predicate PyIn(k: string, v: Json)
  {
    match v
    case JObject(fields) => k in Keys(fields)
    case JString(s) => IsSubstring(k, s)
    case JArray(items) => JString(k) in items
    case _ => false
  }

  /**
   What `k in v` means for each kind of decoded value: some member has the
   key `k`; `k` occurs at some position of the string; some item is the
   string `k`; and never for a number, a boolean or null.
   */
  lemma PyInCases(k: string, v: Json)
    ensures v.JObject? ==> (PyIn(k, v) <==> exists i :: 0 <= i < |v.fields| && v.fields[i].0 == k)
    ensures v.JString? ==> (PyIn(k, v) <==> exists i: nat :: OccursAtIndex(k, v.s, i))
    ensures v.JArray? ==> (PyIn(k, v) <==> exists i :: 0 <= i < |v.items| && v.items[i] == JString(k))
    ensures v.JNull? || v.JBool? || v.JNumber? ==> !PyIn(k, v)
  {
    if v.JString? {
      SubstringSomewhere(k, v.s);
    }
    if v.JObject? {
      var ks := Keys(v.fields);
      if k in ks {
        var i :| 0 <= i < |ks| && ks[i] == k;
        assert v.fields[i].0 == k;
      }
    }
  }

  /** The check the bot applies to every recommended entry. */
  predicate HasTrackAndArtist(v: Json)
  {
    PyIn("track", v) && PyIn("artist", v)
  }

  /** Every entry passes the check. */
  predicate AllHaveTrackAndArtist(vs: seq<Json>)
  {
    forall i :: 0 <= i < |vs| ==> HasTrackAndArtist(vs[i])
  }

  /** The `{"track": t, "artist": a}` object the structuring prompt asks for. */
  function TrackObject(track: string, artist: string): Json
  {
    JObject([("track", JString(track)), ("artist", JString(artist))])
  }

  /** The requested shape always passes the check, whatever the names. */
  lemma TrackObjectPasses(track: string, artist: string)
    ensures HasTrackAndArtist(TrackObject(track, artist))
  {
  }
}
