/** The JavaScript string methods the OBJ reader relies on, with their
    ECMAScript semantics for the argument shapes it uses. */
module JsStrings {

  /** `s.startsWith(p)`. */
  predicate StartsWith(s: string, p: string)
  {
    |p| <= |s| && s[..|p|] == p
  }

  /** `p` occurs in `s` at position `i`. */
  predicate OccursAt(s: string, p: string, i: int)
  {
    0 <= i && i + |p| <= |s| && s[i..i + |p|] == p
  }

  /** The first occurrence of `p` in `s` at or after `from`, or -1. */
  function IndexFrom(s: string, p: string, from: nat): (r: int)
    ensures r == -1 || (from <= r && r + |p| <= |s|)
    decreases |s| + 1 - from
  {
    if from + |p| > |s| then -1
    else if s[from..from + |p|] == p then from
    else IndexFrom(s, p, from + 1)
  }

  lemma {:induction false} IndexFromSpec(s: string, p: string, from: nat)
    requires from <= |s| + 1
    ensures var r := IndexFrom(s, p, from);
            (r == -1 || (from <= r && OccursAt(s, p, r))) &&
            forall j :: from <= j < (if r == -1 then |s| + 1 else r) ==> !OccursAt(s, p, j)
    decreases |s| + 1 - from
  {
    if from + |p| <= |s| && s[from..from + |p|] != p {
      IndexFromSpec(s, p, from + 1);
    }
  }

  /** `s.indexOf(p)`. */
  function IndexOf(s: string, p: string): (r: int)
    ensures r == -1 || (0 <= r && r + |p| <= |s|)
  {
    IndexFrom(s, p, 0)
  }

  /** `s.indexOf(p)` is the first position where `p` occurs, or -1 when it
      occurs nowhere. */
  lemma IndexOfSpec(s: string, p: string)
    ensures var r := IndexOf(s, p);
            -1 <= r <= |s| &&
            (r == -1 <==> forall j :: 0 <= j <= |s| ==> !OccursAt(s, p, j)) &&
            (r != -1 ==> OccursAt(s, p, r) && forall j :: 0 <= j < r ==> !OccursAt(s, p, j))
  {
    IndexFromSpec(s, p, 0);
  }

  /** `s.replace(p, "")` with a string pattern: only the first occurrence of
      `p` is removed, wherever it is. */
  function ReplaceFirst(s: string, p: string): string
  {
    var i := IndexOf(s, p);
    if i == -1 then s else s[..i] + s[i + |p|..]
  }

  /** Without an occurrence the string is unchanged; otherwise putting `p`
      back at its first occurrence restores the string. */
  lemma ReplaceFirstSpec(s: string, p: string)
    ensures var r := ReplaceFirst(s, p);
            var i := IndexOf(s, p);
            (i == -1 ==> r == s) &&
            (i != -1 ==> |r| == |s| - |p| && s == r[..i] + p + r[i..])
  {
    var i := IndexOf(s, p);
    if i != -1 {
      assert OccursAt(s, p, i) by {
        IndexOfSpec(s, p);
      }
      var r := ReplaceFirst(s, p);
      var a, b := s[..i], s[i + |p|..];
      assert r == a + b;
      assert r[..i] == a && r[i..] == b;
      assert s == a + s[i..i + |p|] + b;
    }
  }

  /** `s.slice(0, end)`: a negative `end` counts from the end of the string. */
  function SliceTo(s: string, end: int): (r: string)
    ensures 0 <= end <= |s| ==> r == s[..end]
    ensures end > |s| ==> r == s
    ensures end < 0 ==> r == s[..if |s| + end < 0 then 0 else |s| + end]
  {
    var e := if end < 0 then (if |s| + end < 0 then 0 else |s| + end)
             else if end > |s| then |s| else end;
    s[..e]
  }

  /** Number of occurrences of the character `c` in `s`. */
  function Count(s: string, c: char): nat
  {
    if s == [] then 0 else (if s[0] == c then 1 else 0) + Count(s[1..], c)
  }

  /** The pieces joined back with the separator `c`. */
  function Join(pieces: seq<string>, c: char): string
  {
    if |pieces| == 0 then "" else if |pieces| == 1 then pieces[0]
    else pieces[0] + [c] + Join(pieces[1..], c)
  }

  /** `s.split(c)` for a one-character separator. */
  function Split(s: string, c: char): (r: seq<string>)
    ensures |r| >= 1
  {
    if s == [] then [""]
    else
      var rest := Split(s[1..], c);
      if s[0] == c then [""] + rest
      else [[s[0]] + rest[0]] + rest[1..]
  }

  /** Every occurrence of `c` separates two pieces, so there is always one
      more piece than there are separators, empty pieces included, and no
      piece contains `c`. */
  lemma {:induction false} SplitSpec(s: string, c: char)
    ensures |Split(s, c)| == Count(s, c) + 1
    ensures forall k :: 0 <= k < |Split(s, c)| ==> c !in Split(s, c)[k]
  {
    if s != [] {
      SplitSpec(s[1..], c);
    }
  }

  /** Joining the pieces of a split with the separator gives back the string. */
  lemma {:induction false} SplitJoin(s: string, c: char)
    ensures Join(Split(s, c), c) == s
  {
    if s != [] {
      SplitJoin(s[1..], c);
      var rest := Split(s[1..], c);
      if s[0] != c && |rest| > 1 {
        assert Join([[s[0]] + rest[0]] + rest[1..], c) == [s[0]] + rest[0] + [c] + Join(rest[1..], c);
      }
    }
  }
}
