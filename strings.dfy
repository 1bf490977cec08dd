/** The Python `str` builtins the pipeline relies on: `lower`, `strip`,
    `startswith`, `endswith`, `count`, `rfind`, the `in` operator and
    slicing with a possibly negative end. */
module Strings {

  /** `str.isspace` for one character: the code points Python strips. */
  predicate IsSpace(c: char) {
    var n := c as int;
    n == 32 || 9 <= n <= 13 || 28 <= n <= 31 || n == 0x85 || n == 0xA0 ||
    n == 0x1680 || 0x2000 <= n <= 0x200A || n == 0x2028 || n == 0x2029 ||
    n == 0x202F || n == 0x205F || n == 0x3000
  }

  /** `str.lower` on one character, ASCII letters only. */
  function LowerChar(c: char): char {
    if 'A' <= c <= 'Z' then (c as int + 32) as char else c
  }

  function Lower(s: string): (r: string)
    ensures |r| == |s|
    ensures forall i :: 0 <= i < |s| ==> r[i] == LowerChar(s[i])
  {
    seq(|s|, i requires 0 <= i < |s| => LowerChar(s[i]))
  }

  predicate StartsWith(s: string, prefix: string) {
    |prefix| <= |s| && s[..|prefix|] == prefix
  }

  predicate EndsWith(s: string, suffix: string) {
    |suffix| <= |s| && s[|s| - |suffix|..] == suffix
  }

  /** `k` occurs in `s` starting at index `i`. */
  predicate OccursAt(s: string, k: string, i: int) {
    0 <= i && i + |k| <= |s| && s[i..i + |k|] == k
  }

  /** Python's `k in s` for strings. */
  predicate Contains(s: string, k: string) {
    exists i | 0 <= i <= |s| - |k| :: OccursAt(s, k, i)
  }

  /** `s.count(k)`: occurrences of `k` found scanning left to right, each
      search resuming after the previous match (non-overlapping); the empty
      string occurs `|s| + 1` times. */
  function Count(s: string, k: string): nat
    decreases |s|
  {
    if |k| == 0 then |s| + 1
    else if |s| < |k| then 0
    else if s[..|k|] == k then 1 + Count(s[|k|..], k)
    else Count(s[1..], k)
  }

  /** `s.rfind(c)`: the last index holding `c`, or -1. */
  function RFind(s: string, c: char): (r: int)
    ensures -1 <= r < |s|
    ensures r >= 0 ==> s[r] == c
    ensures forall j :: r < j < |s| ==> s[j] != c
  {
    if s == [] then -1
    else if s[|s| - 1] == c then |s| - 1
    else RFind(s[..|s| - 1], c)
  }

  /** `s[:n]`, where a negative `n` counts from the end. */
  function SliceTo(s: string, n: int): (r: string)
    ensures |r| <= |s| && r == s[..|r|]
    ensures n >= 0 ==> |r| == if n <= |s| then n else |s|
    ensures n < 0 ==> |r| == if |s| + n >= 0 then |s| + n else 0
  {
    if n >= 0 then (if n <= |s| then s[..n] else s)
    else if |s| + n >= 0 then s[..|s| + n]
    else []
  }

  function LStrip(s: string): (r: string)
    ensures |r| <= |s|
  {
    if s != [] && IsSpace(s[0]) then LStrip(s[1..]) else s
  }

  function RStrip(s: string): (r: string)
    ensures |r| <= |s|
  {
    if s != [] && IsSpace(s[|s| - 1]) then RStrip(s[..|s| - 1]) else s
  }

  /** `s.lstrip()` is the suffix of `s` left once its leading whitespace
      is gone, and it does not begin with whitespace. */
  lemma {:induction false} LStripShape(s: string)
    ensures LStrip(s) == s[|s| - |LStrip(s)|..]
    ensures forall j :: 0 <= j < |s| - |LStrip(s)| ==> IsSpace(s[j])
    ensures LStrip(s) == [] || !IsSpace(LStrip(s)[0])
  {
    if s != [] && IsSpace(s[0]) {
      LStripShape(s[1..]);
      assert forall j :: 1 <= j < |s| - |LStrip(s)| ==> s[j] == s[1..][j - 1];
    }
  }

  /** `s.rstrip()` is the prefix of `s` left once its trailing whitespace
      is gone, and it does not end with whitespace. */
  lemma {:induction false} RStripShape(s: string)
    ensures RStrip(s) == s[..|RStrip(s)|]
    ensures forall j :: |RStrip(s)| <= j < |s| ==> IsSpace(s[j])
    ensures RStrip(s) == [] || !IsSpace(RStrip(s)[|RStrip(s)| - 1])
  {
    if s != [] && IsSpace(s[|s| - 1]) {
      RStripShape(s[..|s| - 1]);
    }
  }

  /** Where `Strip(s)` begins inside `s`. */
  function StripOffset(s: string): nat
  {
    |s| - |LStrip(s)|
  }

  /** `s.strip()`: the infix of `s` left once whitespace is removed from
      both ends. */
  function Strip(s: string): string
  {
    RStrip(LStrip(s))
  }

  /** `Strip(s)` is the piece of `s` between two runs of whitespace, and
      it neither begins nor ends with whitespace. */
  lemma StripShape(s: string)
    ensures StripOffset(s) + |Strip(s)| <= |s|
    ensures s[StripOffset(s)..StripOffset(s) + |Strip(s)|] == Strip(s)
    ensures forall j :: 0 <= j < StripOffset(s) ==> IsSpace(s[j])
    ensures forall j :: StripOffset(s) + |Strip(s)| <= j < |s| ==> IsSpace(s[j])
    ensures Strip(s) == [] || (!IsSpace(Strip(s)[0]) && !IsSpace(Strip(s)[|Strip(s)| - 1]))
  {
    LStripShape(s);
    RStripShape(LStrip(s));
  }

  /** `r` is a contiguous piece of `s` starting at `i`. */
  ghost predicate InfixAt(r: string, s: string, i: int) {
    0 <= i && i + |r| <= |s| && s[i..i + |r|] == r
  }

  ghost predicate IsInfix(r: string, s: string) {
    exists i :: InfixAt(r, s, i)
  }

  lemma StripIsInfix(s: string)
    ensures IsInfix(Strip(s), s)
  {
    StripShape(s);
    assert InfixAt(Strip(s), s, StripOffset(s));
  }

  /** With its first character dropped, `s` has `k` wherever `s` had it
      from the second position on. */
  lemma ContainsTail(s: string, k: string)
    requires s != [] && !OccursAt(s, k, 0)
    ensures Contains(s, k) <==> Contains(s[1..], k)
  {
    if Contains(s, k) {
      var i :| 0 <= i <= |s| - |k| && OccursAt(s, k, i);
      assert s[1..][i - 1..i - 1 + |k|] == s[i..i + |k|];
      assert OccursAt(s[1..], k, i - 1);
    }
    if Contains(s[1..], k) {
      var i :| 0 <= i <= |s[1..]| - |k| && OccursAt(s[1..], k, i);
      assert s[i + 1..i + 1 + |k|] == s[1..][i..i + |k|];
      assert OccursAt(s, k, i + 1);
    }
  }

  lemma {:induction false} CountZeroIffAbsent(s: string, k: string)
    requires |k| > 0
    ensures Count(s, k) == 0 <==> !Contains(s, k)
    decreases |s|
  {
    if |s| < |k| {
    } else if s[..|k|] == k {
      assert OccursAt(s, k, 0);
    } else {
      CountZeroIffAbsent(s[1..], k);
      ContainsTail(s, k);
    }
  }

  /** Matches never overlap, so a non-empty `k` fits at most `|s| / |k|`
      times. */
  lemma {:induction false} CountBound(s: string, k: string)
    requires |k| > 0
    ensures Count(s, k) * |k| <= |s|
    decreases |s|
  {
    if |s| < |k| {
    } else if s[..|k|] == k {
      CountBound(s[|k|..], k);
    } else {
      CountBound(s[1..], k);
    }
  }

  /** Positions where `k` does not start can be skipped when counting. */
  lemma {:induction false} CountSkip(s: string, k: string, n: nat)
    requires |k| > 0 && n <= |s|
    requires forall i :: 0 <= i < n ==> !OccursAt(s, k, i)
    ensures Count(s, k) == Count(s[n..], k)
    decreases n
  {
    if n > 0 && |s| >= |k| {
      assert !OccursAt(s, k, 0);
      forall i | 0 <= i < n - 1
        ensures !OccursAt(s[1..], k, i)
      {
        assert !OccursAt(s, k, i + 1);
        if i + |k| <= |s| - 1 {
          assert s[1..][i..i + |k|] == s[i + 1..i + 1 + |k|];
        }
      }
      CountSkip(s[1..], k, n - 1);
      assert s[1..][n - 1..] == s[n..];
    }
  }

  lemma LowerIdempotent(s: string)
    ensures Lower(Lower(s)) == Lower(s)
  {
  }

  /** Lowering commutes with dropping a prefix. */
  lemma LowerDrop(s: string, n: nat)
    requires n <= |s|
    ensures Lower(s)[n..] == Lower(s[n..])
  {
  }

  /** Lowering commutes with taking a prefix. */
  lemma LowerSliceTo(s: string, n: int)
    ensures Lower(SliceTo(s, n)) == SliceTo(Lower(s), n)
  {
  }

  lemma {:induction false} StripIdempotent(s: string)
    ensures Strip(Strip(s)) == Strip(s)
  {
    var r := Strip(s);
    StripShape(s);
    assert LStrip(r) == r;
    assert RStrip(r) == r;
  }
}
