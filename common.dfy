/** Shared vocabulary: Go's nil-or-value results and error wrapping, and the
    few functions of Go's `strings` package the core relies on. */
module Common {

  datatype Option<+T> = None | Some(value: T)

  /** A value or the text of the error returned in its place. */
  datatype Result<+T> = Ok(value: T) | Err(error: string)

  /** The text of `pkgerrors.Wrap(err, msg)`: the message, a colon, the cause. */
  function Wrap(msg: string, cause: string): string {
    msg + ": " + cause
  }

  /** `strings.Contains(s, sub)`. */
  predicate Contains(s: string, sub: string)
    decreases |s|
  {
    sub <= s || (|s| > 0 && Contains(s[1..], sub))
  }

  /** A string shorter than `sub` does not contain it. */
  lemma {:induction false} ShorterNotContains(s: string, sub: string)
    requires |s| < |sub|
    ensures !Contains(s, sub)
    decreases |s|
  {
    if |s| > 0 {
      ShorterNotContains(s[1..], sub);
    }
  }

  /** `strings.Index(s, sub)`: the first position where `sub` occurs, or -1. */
  function IndexOf(s: string, sub: string): (r: int)
    decreases |s|
    ensures r < 0 ==> r == -1
    ensures r >= 0 ==> r + |sub| <= |s| && s[r..r + |sub|] == sub
    ensures r >= 0 <==> Contains(s, sub)
  {
    if sub <= s then 0
    else if |s| == 0 then -1
    else
      var k := IndexOf(s[1..], sub);
      if k < 0 then -1 else k + 1
  }

  /** `strings.Split(s, sep)` for a non-empty separator: the pieces between
      the non-overlapping occurrences of `sep`, leftmost first. */
  function Split(s: string, sep: string): (pieces: seq<string>)
    requires |sep| > 0
    decreases |s|
    ensures |pieces| >= 1
  {
    var i := IndexOf(s, sep);
    if i < 0 then [s] else [s[..i]] + Split(s[i + |sep|..], sep)
  }

  /** `strings.TrimPrefix(s, prefix)`. */
  function TrimPrefix(s: string, prefix: string): (r: string)
    ensures prefix <= s ==> s == prefix + r
    ensures !(prefix <= s) ==> r == s
  {
    if prefix <= s then s[|prefix|..] else s
  }

  /** Searching for a one-character string is searching for the character. */
  lemma {:induction false} ContainsChar(s: string, c: char)
    ensures Contains(s, [c]) <==> c in s
    decreases |s|
  {
    if |s| > 0 {
      ContainsChar(s[1..], c);
      assert s == [s[0]] + s[1..];
    }
  }

  /** Nothing of `sub` in `s`: Split leaves `s` whole. */
  lemma SplitAbsent(s: string, sep: string)
    requires |sep| > 0 && !Contains(s, sep)
    ensures Split(s, sep) == [s]
  {
  }

  /** The first occurrence of a one-character separator is where the caller
      put it, when the text before it does not hold that character. */
  lemma {:induction false} IndexOfCharAfter(a: string, c: char, b: string)
    requires c !in a
    ensures IndexOf(a + [c] + b, [c]) == |a|
    decreases |a|
  {
    if |a| > 0 {
      assert (a + [c] + b)[1..] == a[1..] + [c] + b;
      assert !([c] <= a + [c] + b) by { assert (a + [c] + b)[0] == a[0] != c; }
      IndexOfCharAfter(a[1..], c, b);
    }
  }

  /** A text that starts with `sep` splits first into the empty piece. */
  lemma SplitLeading(sep: string, rest: string)
    requires |sep| > 0
    ensures Split(sep + rest, sep) == [""] + Split(rest, sep)
  {
    assert sep <= sep + rest;
    assert (sep + rest)[|sep|..] == rest;
  }

  /** Joining with a separator character that the left part does not hold can
      be undone: the left part ends at the first separator. */
  lemma JoinInjective(c: char, a1: string, r1: string, a2: string, r2: string)
    requires c !in a1 && c !in a2
    requires a1 + [c] + r1 == a2 + [c] + r2
    ensures a1 == a2 && r1 == r2
  {
    IndexOfCharAfter(a1, c, r1);
    IndexOfCharAfter(a2, c, r2);
    assert a1 == (a1 + [c] + r1)[..|a1|];
    assert a2 == (a2 + [c] + r2)[..|a2|];
    assert r1 == (a1 + [c] + r1)[|a1| + 1..];
    assert r2 == (a2 + [c] + r2)[|a2| + 1..];
  }

  /** `s` without any occurrence of `x`, order kept. */
  function Without(s: seq<string>, x: string): (r: seq<string>)
    ensures forall y :: y in r <==> y in s && y != x
    ensures |r| <= |s|
  {
    if s == [] then []
    else if s[0] == x then Without(s[1..], x)
    else [s[0]] + Without(s[1..], x)
  }

  predicate Unique(s: seq<string>) {
    forall i, j :: 0 <= i < j < |s| ==> s[i] != s[j]
  }

  lemma {:induction false} WithoutKeepsUnique(s: seq<string>, x: string)
    requires Unique(s)
    ensures Unique(Without(s, x))
    decreases |s|
  {
    if s != [] {
      WithoutKeepsUnique(s[1..], x);
      assert s[0] !in s[1..];
    }
  }

  lemma {:induction false} WithoutAbsent(s: seq<string>, x: string)
    requires x !in s
    ensures Without(s, x) == s
    decreases |s|
  {
    if s != [] {
      WithoutAbsent(s[1..], x);
      assert s == [s[0]] + s[1..];
    }
  }
}
