/** The handful of JavaScript string operations the core relies on
    (`startsWith`, `includes`, `indexOf`, `replace` with a string pattern,
    `split`, `toLowerCase`), defined over `seq<char>`. */
module Strings {
  import opened Wrappers

  predicate StartsWith(s: string, p: string) {
    |p| <= |s| && s[..|p|] == p
  }

  /** `p` occurs in `s` starting at index `j`. */
  predicate OccursAt(s: string, p: string, j: nat) {
    j + |p| <= |s| && s[j..j + |p|] == p
  }

  lemma OccursAtTail(s: string, p: string, j: nat)
    requires |s| > 0
    ensures OccursAt(s[1..], p, j) <==> OccursAt(s, p, j + 1)
  {
    if j + |p| <= |s[1..]| {
      assert s[1..][j..j + |p|] == s[j + 1..j + 1 + |p|];
    }
  }

  /** `s.indexOf(p)`: the first index where `p` occurs, or None for -1. */
  function IndexOf(s: string, p: string): (r: Option<nat>)
    ensures r.Some? ==> OccursAt(s, p, r.value)
    ensures r.Some? ==> forall j: nat :: j < r.value ==> !OccursAt(s, p, j)
    ensures r.None? ==> forall j: nat :: !OccursAt(s, p, j)
    decreases |s|
  {
    if StartsWith(s, p) then
      Some(0)
    else if |s| == 0 then
      None
    else
      var rest := IndexOf(s[1..], p);
      forall j: nat ensures OccursAt(s[1..], p, j) <==> OccursAt(s, p, j + 1) {
        OccursAtTail(s, p, j);
      }
      assert !OccursAt(s, p, 0);
      match rest
      case None =>
        assert forall j: nat :: !OccursAt(s, p, j) by {
          forall j: nat ensures !OccursAt(s, p, j) {
            if j > 0 { assert !OccursAt(s[1..], p, j - 1); }
          }
        }
        None
      case Some(i) =>
        assert forall j: nat :: j < i + 1 ==> !OccursAt(s, p, j) by {
          forall j: nat | j < i + 1 ensures !OccursAt(s, p, j) {
            if j > 0 { assert !OccursAt(s[1..], p, j - 1); }
          }
        }
        Some(i + 1)
  }

  /** `s.includes(p)`. */
  predicate Contains(s: string, p: string) {
    IndexOf(s, p).Some?
  }

  lemma ContainsAt(s: string, p: string, j: nat)
    requires OccursAt(s, p, j)
    ensures Contains(s, p)
  {
  }

  /** `s.indexOf(c)` for a single character. */
  function CharIndex(s: string, c: char): (r: Option<nat>)
    ensures r.Some? ==> r.value < |s| && s[r.value] == c && c !in s[..r.value]
    ensures r.None? <==> c !in s
    decreases |s|
  {
    if |s| == 0 then None
    else if s[0] == c then Some(0)
    else
      match CharIndex(s[1..], c)
      case None => None
      case Some(i) =>
        assert s[..i + 1] == [s[0]] + s[1..][..i];
        Some(i + 1)
  }

  /** `s.replace(p, q)` with a string pattern: only the first occurrence
      of `p` is replaced. */
  function ReplaceFirst(s: string, p: string, q: string): (r: string)
    ensures !Contains(s, p) ==> r == s
    ensures |p| == |q| ==> |r| == |s|
  {
    match IndexOf(s, p)
    case None => s
    case Some(i) => s[..i] + q + s[i + |p|..]
  }

  /** `s.split(c)`: always at least one part, and no part holds `c`. */
  function Split(s: string, c: char): (r: seq<string>)
    ensures |r| >= 1
    ensures forall i :: 0 <= i < |r| ==> c !in r[i]
    decreases |s|
  {
    match CharIndex(s, c)
    case None => [s]
    case Some(i) => [s[..i]] + Split(s[i + 1..], c)
  }

  /** Every character of every part of `Split(s, c)` comes from `s`. */
  lemma {:induction false} SplitChars(s: string, c: char, x: char)
    requires x !in s
    ensures forall i :: 0 <= i < |Split(s, c)| ==> x !in Split(s, c)[i]
    decreases |s|
  {
    match CharIndex(s, c)
    case None =>
    case Some(i) =>
      assert x !in s[..i] && x !in s[i + 1..] by {
        assert forall y :: y in s[..i] ==> y in s;
        assert forall y :: y in s[i + 1..] ==> y in s;
      }
      SplitChars(s[i + 1..], c, x);
  }

  lemma {:induction false} SplitAtFirst(a: string, c: char, b: string)
    requires c !in a
    ensures Split(a + [c] + b, c) == [a] + Split(b, c)
  {
    var s := a + [c] + b;
    assert s[|a|] == c;
    assert s[..|a|] == a;
    assert s[|a| + 1..] == b;
  }

  /** `parts.filter(Boolean)` on strings: drops the empty ones. */
  function NonEmpty(parts: seq<string>): (r: seq<string>)
    ensures |r| <= |parts|
    ensures forall i :: 0 <= i < |r| ==> r[i] != "" && r[i] in parts
  {
    if |parts| == 0 then []
    else if parts[0] == "" then NonEmpty(parts[1..])
    else [parts[0]] + NonEmpty(parts[1..])
  }

  lemma NonEmptyCons(x: string, xs: seq<string>)
    ensures NonEmpty([x] + xs) == (if x == "" then [] else [x]) + NonEmpty(xs)
  {
    assert ([x] + xs)[1..] == xs;
  }

  /** `pathname.split('/').filter(Boolean)`: the non-empty path segments. */
  function Segments(path: string): (r: seq<string>)
    ensures forall i :: 0 <= i < |r| ==> r[i] != "" && '/' !in r[i]
  {
    NonEmpty(Split(path, '/'))
  }

  /** A character absent from a path is absent from each of its segments. */
  lemma SegmentsAvoid(path: string, x: char)
    requires x !in path
    ensures forall i :: 0 <= i < |Segments(path)| ==> x !in Segments(path)[i]
  {
    SplitChars(path, '/', x);
  }

  predicate IsUpper(c: char) { 'A' <= c <= 'Z' }

  function LowerChar(c: char): char {
    if IsUpper(c) then (c as int + 32) as char else c
  }

  /** `s.toLowerCase()` restricted to ASCII letters. */
  function ToLower(s: string): (r: string)
    ensures |r| == |s|
    ensures forall i :: 0 <= i < |s| ==> r[i] == LowerChar(s[i])
  {
    seq(|s|, i requires 0 <= i < |s| => LowerChar(s[i]))
  }

  /** Lowercasing turns an upper-case occurrence of a word into a
      lower-case one too. */
  lemma ContainsLowerOf(s: string, w: string)
    requires Contains(s, w)
    ensures Contains(ToLower(s), ToLower(w))
  {
    var j := IndexOf(s, w).value;
    var t := ToLower(s);
    assert t[j..j + |w|] == ToLower(w) by {
      forall i | 0 <= i < |w| ensures t[j..j + |w|][i] == ToLower(w)[i] {
        assert s[j..j + |w|][i] == w[i];
      }
    }
    ContainsAt(t, ToLower(w), j);
  }
}
