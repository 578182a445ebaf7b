/**
 String helpers with Python's semantics, as the bot uses them: `str.split` on a
 one-character separator, `str.join`, the substring test behind `in` on strings,
 and the `[:k]` slice of a list, negative `k` included.
 */
module Text {

  /** Position of the first occurrence of `c` in `s`. */
  function IndexOf(s: string, c: char): (i: nat)
    requires c in s
    ensures i < |s| && s[i] == c
    ensures c !in s[..i]
  {
    if s[0] == c then 0 else 1 + IndexOf(s[1..], c)
  }

  /** Python's `sep.join(xs)`. */
  function Join(xs: seq<string>, sep: string): string
  {
    if |xs| == 0 then ""
    else if |xs| == 1 then xs[0]
    else xs[0] + sep + Join(xs[1..], sep)
  }

  /**
   Joining no pieces gives ""; otherwise the result starts with the first
   piece, ends with the last, and holds one separator between each pair, so
   its length is the pieces' total plus `|xs| - 1` separators.
   */
  lemma {:induction false} JoinEnds(xs: seq<string>, sep: string)
    ensures |xs| == 0 ==> Join(xs, sep) == ""
    ensures |xs| >= 1 ==> xs[0] <= Join(xs, sep)
    ensures |xs| >= 1 ==> var r := Join(xs, sep);
      |xs[|xs| - 1]| <= |r| && r[|r| - |xs[|xs| - 1]|..] == xs[|xs| - 1]
    ensures |xs| >= 1 ==> |Join(xs, sep)| == TotalLength(xs) + (|xs| - 1) * |sep|
    decreases |xs|
  {
    if |xs| >= 2 {
      JoinEnds(xs[1..], sep);
      var tail := Join(xs[1..], sep);
      assert Join(xs, sep) == xs[0] + sep + tail;
      assert xs[1..][|xs[1..]| - 1] == xs[|xs| - 1];
      assert TotalLength(xs) == |xs[0]| + TotalLength(xs[1..]);
    }
  }

  /** The summed length of the pieces. */
  function TotalLength(xs: seq<string>): nat
  {
    if |xs| == 0 then 0 else |xs[0]| + TotalLength(xs[1..])
  }

  /** No piece of `xs` contains the character `c`. */
  predicate Free(xs: seq<string>, c: char)
  {
    forall i :: 0 <= i < |xs| ==> c !in xs[i]
  }

  /**
   Python's `s.split(c)` for a single-character separator: the pieces between
   consecutive occurrences of `c`. Python never returns an empty list here,
   and joining the pieces back with `c` gives `s` again.
   */
  function Split(s: string, c: char): (r: seq<string>)
    ensures |r| >= 1
    ensures Free(r, c)
    ensures Join(r, [c]) == s
    decreases |s|
  {
    if c in s then
      var i := IndexOf(s, c);
      var rest := Split(s[i + 1..], c);
      assert s == s[..i] + [c] + s[i + 1..];
      [s[..i]] + rest
    else
      [s]
  }

  /** Splitting inverts joining when no piece contains the separator. */
  lemma {:induction false} SplitJoin(xs: seq<string>, c: char)
    requires |xs| >= 1
    requires Free(xs, c)
    ensures Split(Join(xs, [c]), c) == xs
    decreases |xs|
  {
    if |xs| == 1 {
      assert Join(xs, [c]) == xs[0];
    } else {
      var s := Join(xs, [c]);
      var tail := Join(xs[1..], [c]);
      assert s == xs[0] + [c] + tail;
      assert c in s by { assert s[|xs[0]|] == c; }
      var i := IndexOf(s, c);
      SplitJoinHead(xs[0], tail, c);
      assert i == |xs[0]|;
      assert s[..i] == xs[0];
      assert s[i + 1..] == tail;
      assert Split(s, c) == [xs[0]] + Split(tail, c);
      SplitJoin(xs[1..], c);
      assert xs == [xs[0]] + xs[1..];
    }
  }

  /** The first separator of `a + [c] + b` sits right after `a` when `a` has none. */
  lemma {:induction false} SplitJoinHead(a: string, b: string, c: char)
    requires c !in a
    ensures IndexOf(a + [c] + b, c) == |a|
    decreases |a|
  {
    if |a| > 0 {
      assert (a + [c] + b)[1..] == a[1..] + [c] + b;
      SplitJoinHead(a[1..], b, c);
    }
  }

  /** Python's `k in s` for strings: `k` occurs somewhere in `s`. */
  predicate IsSubstring(k: string, s: string)
    decreases |s|
  {
    (|k| <= |s| && s[..|k|] == k) || (|s| > 0 && IsSubstring(k, s[1..]))
  }

  /** `k` occurs in `s` starting at position `i`. */
  predicate OccursAtIndex(k: string, s: string, i: nat)
  {
    i + |k| <= |s| && s[i..i + |k|] == k
  }

  /** The substring test holds exactly when `k` occurs at some position of `s`. */
  lemma {:induction false} SubstringSomewhere(k: string, s: string)
    ensures IsSubstring(k, s) <==> exists i: nat :: OccursAtIndex(k, s, i)
    decreases |s|
  {
    if IsSubstring(k, s) {
      if |k| <= |s| && s[..|k|] == k {
        assert OccursAtIndex(k, s, 0);
      } else {
        SubstringSomewhere(k, s[1..]);
        var i: nat :| OccursAtIndex(k, s[1..], i);
        assert s[1..][i..i + |k|] == s[i + 1..i + 1 + |k|];
        assert OccursAtIndex(k, s, i + 1);
      }
    } else {
      forall i: nat | OccursAtIndex(k, s, i)
        ensures false
      {
        OccursAt(k, s, i);
      }
    }
  }

  /** An occurrence at any offset makes `k` a substring of `s`. */
  lemma {:induction false} OccursAt(k: string, s: string, i: nat)
    requires i + |k| <= |s| && s[i..i + |k|] == k
    ensures IsSubstring(k, s)
    decreases i
  {
    if i > 0 {
      assert s[1..][i - 1..i - 1 + |k|] == s[i..i + |k|];
      OccursAt(k, s[1..], i - 1);
    }
  }

  /** Python's `xs[:k]`: a negative `k` counts from the end. */
  function PyPrefix<T>(xs: seq<T>, k: int): (r: seq<T>)
    ensures k >= 0 ==> |r| == if k < |xs| then k else |xs|
    ensures k < 0 ==> |r| == if |xs| + k > 0 then |xs| + k else 0
    ensures r <= xs
  {
    if k >= 0 then
      (if k < |xs| then xs[..k] else xs)
    else
      (if |xs| + k > 0 then xs[..|xs| + k] else [])
  }
}
