/**
 * The string operations the client code relies on: `indexOf`, `replace` with a
 * string pattern, `startsWith`, `includes`, `toUpperCase` (ASCII letters) and
 * the decimal rendering of integers.
 */
module Strings {
  import opened Wrappers

  /** `p` occurs in `s` starting at position `i`. */
  predicate OccursAt(s: string, p: string, i: nat)
  {
    i + |p| <= |s| && s[i..i + |p|] == p
  }

  /** `s.startsWith(p)` */
  predicate StartsWith(s: string, p: string)
  {
    OccursAt(s, p, 0)
  }

  /** The first position at or after `from` where `p` occurs. */
  function IndexFrom(s: string, p: string, from: nat): (r: Option<nat>)
    requires from <= |s|
    ensures r.Some? ==> from <= r.value && OccursAt(s, p, r.value)
    ensures r.Some? ==> forall j :: from <= j < r.value ==> !OccursAt(s, p, j)
    ensures r.None? ==> forall j :: from <= j <= |s| ==> !OccursAt(s, p, j)
    decreases |s| - from
  {
    if OccursAt(s, p, from) then Some(from)
    else if from == |s| then None
    else IndexFrom(s, p, from + 1)
  }

  /** `s.indexOf(p)`, with `None` for -1. */
  function IndexOf(s: string, p: string): (r: Option<nat>)
    ensures r.Some? ==> OccursAt(s, p, r.value) && forall j :: 0 <= j < r.value ==> !OccursAt(s, p, j)
    ensures r.None? ==> forall j :: 0 <= j <= |s| ==> !OccursAt(s, p, j)
  {
    IndexFrom(s, p, 0)
  }

  /** `s.includes(p)` */
  predicate Contains(s: string, p: string)
  {
    IndexOf(s, p).Some?
  }

  /** `s.replace(p, rep)` with a string pattern: only the first occurrence is replaced. */
  function ReplaceFirst(s: string, p: string, rep: string): string
  {
    match IndexOf(s, p)
    case None => s
    case Some(i) => s[..i] + rep + s[i + |p|..]
  }

  /**
   * What `replace` does, stated without `IndexOf`: when `i` is the first
   * position where `p` occurs, exactly that occurrence is replaced.
   */
  lemma ReplaceFirstAt(s: string, p: string, rep: string, i: nat)
    requires OccursAt(s, p, i)
    requires forall j :: 0 <= j < i ==> !OccursAt(s, p, j)
    ensures ReplaceFirst(s, p, rep) == s[..i] + rep + s[i + |p|..]
  {
  }

  /** A string in which `p` does not occur is left as it is. */
  lemma ReplaceFirstAbsent(s: string, p: string, rep: string)
    requires forall j :: 0 <= j <= |s| ==> !OccursAt(s, p, j)
    ensures ReplaceFirst(s, p, rep) == s
  {
  }

  /** Removing a leading occurrence leaves exactly the rest of the string. */
  lemma RemoveLeading(p: string, rest: string)
    ensures ReplaceFirst(p + rest, p, "") == rest
  {
    var s := p + rest;
    assert OccursAt(s, p, 0) by { assert s[..|p|] == p; }
    ReplaceFirstAt(s, p, "", 0);
    assert s[|p|..] == rest;
  }

  /** An ASCII lower-case letter. */
  predicate IsLower(c: char)
  {
    'a' <= c <= 'z'
  }

  /** `toUpperCase` on one character, for ASCII letters. */
  function UpperChar(c: char): (d: char)
    ensures IsLower(c) ==> d as int == c as int - 32
    ensures !IsLower(c) ==> d == c
  {
    if IsLower(c) then (c as int - 32) as char else c
  }

  /** `s.toUpperCase()` for ASCII letters; every other character is kept. */
  function Upper(s: string): (r: string)
    ensures |r| == |s|
    ensures forall i :: 0 <= i < |s| ==> r[i] == UpperChar(s[i])
  {
    if s == [] then [] else [UpperChar(s[0])] + Upper(s[1..])
  }

  /** Upper-casing twice changes nothing more. */
  lemma {:induction false} UpperIdempotent(s: string)
    ensures Upper(Upper(s)) == Upper(s)
  {
    var u := Upper(s);
    var uu := Upper(u);
    assert |uu| == |u|;
    forall i | 0 <= i < |u| ensures uu[i] == u[i] {
      assert u[i] == UpperChar(s[i]);
    }
  }

  predicate IsDigit(c: char)
  {
    '0' <= c <= '9'
  }

  predicate AllDigits(s: string)
  {
    forall i :: 0 <= i < |s| ==> IsDigit(s[i])
  }

  function DigitChar(d: nat): (c: char)
    requires d < 10
    ensures IsDigit(c)
  {
    ('0' as int + d) as char
  }

  function DigitValue(c: char): (d: nat)
    requires IsDigit(c)
    ensures d < 10
  {
    c as int - '0' as int
  }

  /** The decimal digits of `n`, most significant first, as `String(n)` writes them. */
  function NatText(n: nat): (r: string)
    ensures |r| >= 1 && AllDigits(r)
    ensures r[0] == '0' ==> n == 0
    decreases n
  {
    if n < 10 then [DigitChar(n)] else NatText(n / 10) + [DigitChar(n % 10)]
  }

  /** The number written by a non-empty run of decimal digits. */
  function DigitsValue(s: string): nat
    requires AllDigits(s)
    decreases |s|
  {
    if s == [] then 0 else DigitsValue(s[..|s| - 1]) * 10 + DigitValue(s[|s| - 1])
  }

  /** Reading back the digits of `n` gives `n`. */
  lemma {:induction false} NatTextRoundTrip(n: nat)
    ensures DigitsValue(NatText(n)) == n
    decreases n
  {
    if n >= 10 {
      NatTextRoundTrip(n / 10);
      var r := NatText(n);
      assert r[..|r| - 1] == NatText(n / 10);
    }
  }

  /** `String(n)` for an integer `n`. */
  function IntText(n: int): (r: string)
    ensures |r| >= 1
    ensures n >= 0 ==> AllDigits(r)
    ensures n < 0 ==> r[0] == '-' && AllDigits(r[1..])
  {
    if n < 0 then "-" + NatText(-n) else NatText(n)
  }
}
