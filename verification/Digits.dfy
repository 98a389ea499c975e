/** Decimal notation of integers. */
module Digits {

  predicate IsDigit(c: char) {
    '0' <= c <= '9'
  }

  predicate AllDigits(s: string) {
    forall i :: 0 <= i < |s| ==> IsDigit(s[i])
  }

  function DigitChar(d: nat): (c: char)
    requires d < 10
    ensures IsDigit(c) && DigitValue(c) == d
  {
    '0' + d as char
  }

  function DigitValue(c: char): nat
    requires IsDigit(c)
  {
    (c - '0') as nat
  }

  function PrintNat(n: nat): (s: string)
    ensures s != [] && AllDigits(s)
  {
    if n < 10 then [DigitChar(n)] else PrintNat(n / 10) + [DigitChar(n % 10)]
  }

  function Zeros(n: nat): (s: string)
    ensures |s| == n && AllDigits(s)
  {
    if n == 0 then "" else "0" + Zeros(n - 1)
  }

  lemma {:induction false} ZerosSnoc(n: nat)
    ensures Zeros(n + 1) == Zeros(n) + "0"
  {
    if n > 0 {
      ZerosSnoc(n - 1);
    }
  }

  /** The empty digit string reads as zero, as `BigInt("")` does. */
  function ParseNat(s: string): nat
    requires AllDigits(s)
  {
    if s == [] then 0 else ParseNat(s[..|s| - 1]) * 10 + DigitValue(s[|s| - 1])
  }

  function PrintInt(n: int): string {
    if n < 0 then "-" + PrintNat(-n) else PrintNat(n)
  }

  lemma {:induction false} ParsePrint(n: nat)
    ensures ParseNat(PrintNat(n)) == n
  {
    var s := PrintNat(n);
    if n >= 10 {
      ParsePrint(n / 10);
      assert s[..|s| - 1] == PrintNat(n / 10);
    }
  }

  lemma PrintIntInjective(a: int, b: int)
    requires PrintInt(a) == PrintInt(b)
    ensures a == b
  {
    var m, n := if a < 0 then -a else a, if b < 0 then -b else b;
    ParsePrint(m);
    ParsePrint(n);
    assert IsDigit(PrintNat(m)[0]) && IsDigit(PrintNat(n)[0]);
    assert a < 0 ==> PrintInt(a)[1..] == PrintNat(m);
    assert b < 0 ==> PrintInt(b)[1..] == PrintNat(n);
  }

  /** A digit string ends where the next non-digit stands. */
  lemma {:induction false} DigitsEnd(a: string, b: string, r: string, s: string)
    requires AllDigits(a) && AllDigits(b)
    requires r == [] || !IsDigit(r[0])
    requires s == [] || !IsDigit(s[0])
    requires a + r == b + s
    ensures a == b && r == s
  {
    var w := a + r;
    assert |a| < |w| ==> w[|a|] == r[0];
    assert |b| < |w| ==> w[|b|] == (b + s)[|b|] == s[0];
    assert forall i :: 0 <= i < |a| ==> w[i] == a[i];
    assert forall i :: 0 <= i < |b| ==> w[i] == (b + s)[i] == b[i];
    assert a == (a + r)[..|a|] && b == (b + s)[..|b|];
    assert r == (a + r)[|a|..] && s == (b + s)[|b|..];
  }
}
