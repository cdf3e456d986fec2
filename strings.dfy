/** The JavaScript string primitives the debate core leans on: the whitespace
    class shared by `String.prototype.trim` and the regular-expression class
    `\s`, trimming, prefix and suffix tests, the decimal text of an integer
    (template-literal interpolation of a number) and `parseInt` without a radix. */
module Strings {

  /** ECMAScript WhiteSpace and LineTerminator code points: the set that `trim`
      strips, that `\s` matches and that `parseInt` skips. */
  predicate IsSpace(c: char) {
    || c == ' ' || c == '\t' || c == '\n' || c == '\r' || c == '\U{000B}' || c == '\U{000C}'
    || c == '\U{00A0}' || c == '\U{1680}' || ('\U{2000}' <= c <= '\U{200A}')
    || c == '\U{2028}' || c == '\U{2029}' || c == '\U{202F}' || c == '\U{205F}'
    || c == '\U{3000}' || c == '\U{FEFF}'
  }

  predicate AllSpace(s: string) {
    forall i :: 0 <= i < |s| ==> IsSpace(s[i])
  }

  /** Length of the leading whitespace run of `s`. */
  function LeadingSpaces(s: string): (n: nat)
    ensures n <= |s|
    ensures forall i :: 0 <= i < n ==> IsSpace(s[i])
    ensures n < |s| ==> !IsSpace(s[n])
  {
    if s == [] || !IsSpace(s[0]) then 0 else 1 + LeadingSpaces(s[1..])
  }

  /** Length of the trailing whitespace run of `s`. */
  function TrailingSpaces(s: string): (n: nat)
    ensures n <= |s|
    ensures forall i :: |s| - n <= i < |s| ==> IsSpace(s[i])
    ensures n < |s| ==> !IsSpace(s[|s| - 1 - n])
  {
    if s == [] || !IsSpace(s[|s| - 1]) then 0 else 1 + TrailingSpaces(s[..|s| - 1])
  }

  /** Length of the leading run of non-whitespace characters of `s`. */
  function LeadingNonSpaces(s: string): (n: nat)
    ensures n <= |s|
    ensures forall i :: 0 <= i < n ==> !IsSpace(s[i])
    ensures n < |s| ==> IsSpace(s[n])
  {
    if s == [] || IsSpace(s[0]) then 0 else 1 + LeadingNonSpaces(s[1..])
  }

  /** `String.prototype.trim`: neither end of the result is whitespace. */
  function Trim(s: string): (r: string)
    ensures |r| <= |s|
    ensures r != [] ==> !IsSpace(r[0]) && !IsSpace(r[|r| - 1])
  {
    var k := LeadingSpaces(s);
    if k == |s| then []
    else
      var n := TrailingSpaces(s);
      assert k < |s| - n;
      s[k..|s| - n]
  }

  /** What `trim` removes is whitespace only: the trimmed text is the slice
      of `s` after its leading whitespace, and all that follows it is
      whitespace. */
  lemma TrimIsPaddedCore(s: string)
    ensures LeadingSpaces(s) + |Trim(s)| <= |s|
    ensures Trim(s) == s[LeadingSpaces(s)..LeadingSpaces(s) + |Trim(s)|]
    ensures forall i :: LeadingSpaces(s) + |Trim(s)| <= i < |s| ==> IsSpace(s[i])
  {
  }

  /** The same, as a decomposition: `s` is a whitespace run, the trimmed
      text, and a whitespace run. */
  lemma TrimIsPadded(s: string)
    ensures LeadingSpaces(s) + |Trim(s)| <= |s|
    ensures s == s[..LeadingSpaces(s)] + Trim(s) + s[LeadingSpaces(s) + |Trim(s)|..]
    ensures AllSpace(s[..LeadingSpaces(s)]) && AllSpace(s[LeadingSpaces(s) + |Trim(s)|..])
  {
    TrimIsPaddedCore(s);
    var k := LeadingSpaces(s);
    var j := k + |Trim(s)|;
    SplitInThree(s, k, j);
    SpacePrefix(s, k);
    SpaceSuffix(s, j);
  }

  lemma SplitInThree(s: string, i: nat, j: nat)
    requires i <= j <= |s|
    ensures s == s[..i] + s[i..j] + s[j..]
  {
    assert s[..i] + s[i..j] == s[..j];
  }

  lemma SpacePrefix(s: string, j: nat)
    requires j <= |s| && forall p :: 0 <= p < j ==> IsSpace(s[p])
    ensures AllSpace(s[..j])
  {
    forall p | 0 <= p < j ensures IsSpace(s[..j][p]) {
      assert s[..j][p] == s[p];
    }
  }

  lemma SpaceSuffix(s: string, i: nat)
    requires i <= |s| && forall p :: i <= p < |s| ==> IsSpace(s[p])
    ensures AllSpace(s[i..])
  {
    forall p | 0 <= p < |s| - i ensures IsSpace(s[i..][p]) {
      assert s[i..][p] == s[i + p];
    }
  }

  lemma {:induction false} TrimEmptyIffAllSpace(s: string)
    ensures Trim(s) == [] <==> AllSpace(s)
  {
    var k := LeadingSpaces(s);
    assert Trim(s) == [] <==> k == |s|;
  }

  /** Trimming twice trims nothing more: `s.trim().trim() === s.trim()`. */
  lemma TrimIdempotent(s: string)
    ensures Trim(Trim(s)) == Trim(s)
  {
    var r := Trim(s);
    if r != [] {
      assert LeadingSpaces(r) == 0;
      assert TrailingSpaces(r) == 0;
      assert r[0..|r|] == r;
    }
  }

  predicate StartsWith(s: string, prefix: string) {
    |prefix| <= |s| && s[..|prefix|] == prefix
  }

  /** `sub` occurs in `s` starting at index `k`. */
  predicate OccursAt(s: string, sub: string, k: nat) {
    k + |sub| <= |s| && s[k..k + |sub|] == sub
  }

  predicate EndsWith(s: string, suffix: string) {
    |suffix| <= |s| && s[|s| - |suffix|..] == suffix
  }

  predicate IsDigit(c: char) {
    '0' <= c <= '9'
  }

  predicate AllDigits(s: string) {
    forall i :: 0 <= i < |s| ==> IsDigit(s[i])
  }

  function DigitChar(d: nat): (c: char)
    requires d < 10
    ensures IsDigit(c) && DigitValue(c) == d
  {
    "0123456789"[d]
  }

  /** The decimal text of a non-negative integer, as `${n}` renders it. */
  function NatToString(n: nat): (r: string)
    ensures |r| >= 1 && AllDigits(r)
    ensures |r| > 1 ==> r[0] != '0'
  {
    if n < 10 then [DigitChar(n)] else NatToString(n / 10) + [DigitChar(n % 10)]
  }

  /** The decimal text of an integer, with a leading `-` when negative. */
  function IntToString(i: int): (r: string)
    ensures |r| >= 1 && (r[0] == '-' || IsDigit(r[0]))
    ensures forall i :: 1 <= i < |r| ==> IsDigit(r[i])
  {
    if i < 0 then "-" + NatToString(-i) else NatToString(i)
  }

  predicate IsHexDigit(c: char) {
    ('0' <= c <= '9') || ('a' <= c <= 'f') || ('A' <= c <= 'F')
  }

  /** Value of a digit in bases up to 16 (`0-9`, `a-f`, `A-F`). */
  function DigitValue(c: char): (v: nat)
    requires IsHexDigit(c)
    ensures v < 16
  {
    if '0' <= c <= '9' then (c as int) - ('0' as int)
    else if 'a' <= c <= 'f' then (c as int) - ('a' as int) + 10
    else (c as int) - ('A' as int) + 10
  }

  predicate IsRadixDigit(c: char, radix: nat) {
    IsHexDigit(c) && DigitValue(c) < radix
  }

  /** Length of the leading run of base-`radix` digits. */
  function DigitRun(s: string, radix: nat): (n: nat)
    ensures n <= |s|
    ensures forall i :: 0 <= i < n ==> IsRadixDigit(s[i], radix)
    ensures n < |s| ==> !IsRadixDigit(s[n], radix)
  {
    if s == [] || !IsRadixDigit(s[0], radix) then 0 else 1 + DigitRun(s[1..], radix)
  }

  /** Positional value of a string of base-`radix` digits. */
  function DigitsValue(s: string, radix: nat): int
    requires forall i :: 0 <= i < |s| ==> IsRadixDigit(s[i], radix)
  {
    if s == [] then 0
    else
      var init := s[..|s| - 1];
      assert forall i :: 0 <= i < |init| ==> init[i] == s[i];
      assert IsRadixDigit(s[|s| - 1], radix);
      DigitsValue(init, radix) * radix + DigitValue(s[|s| - 1])
  }

  /** A JavaScript number produced by `parseInt`: an integer or `NaN`. */
  datatype JsNumber = NaN | Num(value: int)

  /** `parseInt(s)` with no radix: skip leading whitespace, take one optional sign,
      read base 16 after a `0x`/`0X` prefix and base 10 otherwise, stop at the first
      non-digit, and give `NaN` when no digit was read. */
  function ParseInt(s: string): (r: JsNumber)
    ensures r.Num? ==> exists i :: 0 <= i < |s| && IsHexDigit(s[i])
  {
    var k := LeadingSpaces(s);
    var negative := k < |s| && s[k] == '-';
    var p := if k < |s| && (s[k] == '-' || s[k] == '+') then k + 1 else k;
    var hex := p + 2 <= |s| && s[p] == '0' && (s[p + 1] == 'x' || s[p + 1] == 'X');
    var radix := if hex then 16 else 10;
    var q := if hex then p + 2 else p;
    var body := s[q..];
    var n := DigitRun(body, radix);
    if n == 0 then NaN
    else
      assert IsHexDigit(body[0]) && body[0] == s[q];
      var v: int := DigitsValue(body[..n], radix);
      Num(if negative then -v else v)
  }

  lemma {:induction false} DigitsValueOfNatToString(n: nat)
    ensures forall i :: 0 <= i < |NatToString(n)| ==> IsRadixDigit(NatToString(n)[i], 10)
    ensures DigitsValue(NatToString(n), 10) == n
  {
    var r := NatToString(n);
    assert forall i :: 0 <= i < |r| ==> IsRadixDigit(r[i], 10);
    if n >= 10 {
      DigitsValueOfNatToString(n / 10);
      assert r[..|r| - 1] == NatToString(n / 10);
    }
  }

  /** `parseInt` reads a plain decimal digit string as its value. */
  lemma ParseIntOfDigits(s: string)
    requires |s| >= 1 && AllDigits(s)
    ensures forall i :: 0 <= i < |s| ==> IsRadixDigit(s[i], 10)
    ensures ParseInt(s) == Num(DigitsValue(s, 10))
  {
    assert forall i :: 0 <= i < |s| ==> IsRadixDigit(s[i], 10);
    assert !IsSpace(s[0]);
    assert LeadingSpaces(s) == 0;
    assert !(s[0] == '-' || s[0] == '+');
    assert !(|s| >= 2 && s[0] == '0' && (s[1] == 'x' || s[1] == 'X')) by {
      if |s| >= 2 { assert IsDigit(s[1]); }
    }
    var n := DigitRun(s, 10);
    assert n == |s|;
    assert s[..n] == s;
  }

  /** `parseInt` reads back the decimal text of every non-negative integer. */
  lemma ParseIntOfNatToString(n: nat)
    ensures ParseInt(NatToString(n)) == Num(n)
  {
    DigitsValueOfNatToString(n);
    ParseIntOfDigits(NatToString(n));
  }

  lemma NatToStringInjective(a: nat, b: nat)
    requires NatToString(a) == NatToString(b)
    ensures a == b
  {
    DigitsValueOfNatToString(a);
    DigitsValueOfNatToString(b);
  }

  /** Distinct integers have distinct decimal texts. */
  lemma IntToStringInjective(a: int, b: int)
    requires IntToString(a) == IntToString(b)
    ensures a == b
  {
    var s := IntToString(a);
    assert a < 0 <==> s[0] == '-' by {
      if a >= 0 { assert s == NatToString(a); }
    }
    assert b < 0 <==> s[0] == '-' by {
      if b >= 0 { assert s == NatToString(b); }
    }
    if a < 0 {
      assert s[1..] == NatToString(-a) && s[1..] == NatToString(-b);
      NatToStringInjective(-a, -b);
    } else {
      NatToStringInjective(a, b);
    }
  }
}
