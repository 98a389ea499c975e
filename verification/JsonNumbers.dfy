/** Numbers as `JSON.stringify` writes them: Number::toString of ECMA-262 (section 6.1.6.1.20) for
    finite numbers, `null` for the others. A finite number is given by its sign, the shortest decimal
    digits that tell it apart, and where the point stands among them; how a runtime finds these digits
    is not part of the model. */
module JsonNumbers {
  import opened Digits

  predicate IsSignificant(s: string) {
    s != [] && AllDigits(s) && s[0] != '0' && s[|s| - 1] != '0'
  }

  type Significant = s: string | IsSignificant(s) witness "1"

  /** `Finite(_, digits, point)` is `0.digits` times ten to the power of `point`. */
  datatype Number =
    | NaN
    | Infinity(negative: bool)
    | Zero(negative: bool)
    | Finite(negative: bool, digits: Significant, point: int)

  // ---------------------------------------------------------------- printing

  /** The parts of a printed magnitude: the digits before the point, those after it, an exponent. */
  datatype Parts = Parts(whole: string, frac: string, hasExponent: bool, exponent: int)

  function FiniteParts(digits: Significant, point: int): Parts {
    var k := |digits|;
    if k <= point <= 21 then Parts(digits + Zeros(point - k), "", false, 0)
    else if 0 < point <= 21 then Parts(digits[..point], digits[point..], false, 0)
    else if -6 < point <= 0 then Parts("0", Zeros(-point) + digits, false, 0)
    else Parts(digits[..1], digits[1..], true, point - 1)
  }

  function PartsOf(n: Number): Parts
    requires n.Zero? || n.Finite?
  {
    match n
    case Zero(_) => Parts("0", "", false, 0)
    case Finite(_, digits, point) => FiniteParts(digits, point)
  }

  function Magnitude(n: int): nat {
    if n < 0 then -n else n
  }

  function ExponentText(p: Parts): string {
    if !p.hasExponent then "" else "e" + (if p.exponent < 0 then "-" else "+") + PrintNat(Magnitude(p.exponent))
  }

  function Tail(p: Parts): string {
    (if p.frac == [] then "" else "." + p.frac) + ExponentText(p)
  }

  function PartsText(p: Parts): string {
    p.whole + Tail(p)
  }

  /** Zero is written without its sign. */
  function PrintNumber(n: Number): string {
    match n
    case NaN => "null"
    case Infinity(_) => "null"
    case Zero(_) => "0"
    case Finite(negative, _, _) => (if negative then "-" else "") + PartsText(PartsOf(n))
  }

  // ---------------------------------------------------------------- no text reads two ways

  predicate NumberChar(c: char) {
    IsDigit(c) || c == '.' || c == 'e' || c == '+' || c == '-'
  }

  predicate Ends(r: string) {
    r == [] || !NumberChar(r[0])
  }

  predicate Printable(p: Parts) {
    p.whole != [] && AllDigits(p.whole) && AllDigits(p.frac)
  }

  lemma FiniteIsPrintable(n: Number)
    requires n.Zero? || n.Finite?
    ensures Printable(PartsOf(n))
  {
  }

  lemma DropPrefix(p: string, r: string, s: string)
    requires p + r == p + s
    ensures r == s
  {
    assert r == (p + r)[|p|..] && s == (p + s)[|p|..];
  }

  lemma ExponentForm(p: Parts, r: string)
    ensures var t := ExponentText(p) + r;
            if p.hasExponent then
              && |t| >= 2 && t[0] == 'e' && t[1] == (if p.exponent < 0 then '-' else '+')
              && t[2..] == PrintNat(Magnitude(p.exponent)) + r
            else t == r
  {
    if p.hasExponent {
      var t, d := ExponentText(p) + r, PrintNat(Magnitude(p.exponent));
      assert ExponentText(p) == ['e', if p.exponent < 0 then '-' else '+'] + d;
      assert t == ['e', if p.exponent < 0 then '-' else '+'] + (d + r);
    }
  }

  lemma ExponentsDiffer(p: Parts, q: Parts, r: string, s: string)
    requires Ends(r) && Ends(s) && ExponentText(p) + r == ExponentText(q) + s
    ensures p.hasExponent == q.hasExponent && r == s && (p.hasExponent ==> p.exponent == q.exponent)
  {
    hide ExponentText, PrintNat;
    ExponentForm(p, r);
    ExponentForm(q, s);
    if p.hasExponent && q.hasExponent {
      var m, n := Magnitude(p.exponent), Magnitude(q.exponent);
      DigitsEnd(PrintNat(m), PrintNat(n), r, s);
      ParsePrint(m);
      ParsePrint(n);
    }
  }

  lemma TailForm(p: Parts, r: string)
    requires Ends(r)
    ensures var t, e := Tail(p) + r, ExponentText(p) + r;
            && (e == [] || (!IsDigit(e[0]) && e[0] != '.'))
            && (t == [] || !IsDigit(t[0]))
            && if p.frac == [] then t == e else t != [] && t[0] == '.' && t[1..] == p.frac + e
  {
    hide ExponentText;
    ExponentForm(p, r);
    var e := ExponentText(p) + r;
    if p.frac == [] {
      assert Tail(p) == "" + ExponentText(p) == ExponentText(p);
    } else {
      assert Tail(p) + r == "." + (p.frac + e);
    }
  }

  lemma TailsDiffer(p: Parts, q: Parts, r: string, s: string)
    requires Ends(r) && Ends(s) && AllDigits(p.frac) && AllDigits(q.frac) && Tail(p) + r == Tail(q) + s
    ensures p.frac == q.frac && p.hasExponent == q.hasExponent && r == s && (p.hasExponent ==> p.exponent == q.exponent)
  {
    hide ExponentText, Tail;
    TailForm(p, r);
    TailForm(q, s);
    if p.frac != [] && q.frac != [] {
      DigitsEnd(p.frac, q.frac, ExponentText(p) + r, ExponentText(q) + s);
    }
    ExponentsDiffer(p, q, r, s);
  }

  lemma PartsDiffer(p: Parts, q: Parts, r: string, s: string)
    requires Printable(p) && Printable(q) && Ends(r) && Ends(s)
    requires PartsText(p) + r == PartsText(q) + s
    ensures p.whole == q.whole && p.frac == q.frac && p.hasExponent == q.hasExponent && r == s
    ensures p.hasExponent ==> p.exponent == q.exponent
  {
    hide Tail;
    assert PartsText(p) + r == p.whole + (Tail(p) + r) && PartsText(q) + s == q.whole + (Tail(q) + s);
    TailForm(p, r);
    TailForm(q, s);
    DigitsEnd(p.whole, q.whole, Tail(p) + r, Tail(q) + s);
    TailsDiffer(p, q, r, s);
  }

  // ---------------------------------------------------------------- parts tell the number

  lemma ZerosAfter(a: string, i: nat, b: string, j: nat)
    requires a != [] && b != [] && a[|a| - 1] != '0' && b[|b| - 1] != '0'
    requires a + Zeros(i) == b + Zeros(j)
    ensures a == b && i == j
  {
    AllZeros(i);
    AllZeros(j);
    var s, t := a + Zeros(i), b + Zeros(j);
    assert s[|a| - 1] == a[|a| - 1] && t[|b| - 1] == b[|b| - 1];
    assert forall k :: |a| <= k < |s| ==> s[k] == '0';
    assert forall k :: |b| <= k < |t| ==> t[k] == '0';
    assert a == s[..|a|] && b == t[..|b|];
  }

  lemma ZerosBefore(i: nat, a: string, j: nat, b: string)
    requires a != [] && b != [] && a[0] != '0' && b[0] != '0'
    requires Zeros(i) + a == Zeros(j) + b
    ensures a == b && i == j
  {
    AllZeros(i);
    AllZeros(j);
    var s, t := Zeros(i) + a, Zeros(j) + b;
    assert s[i] == a[0] && t[j] == b[0];
    assert forall k :: 0 <= k < i ==> s[k] == '0';
    assert forall k :: 0 <= k < j ==> t[k] == '0';
    assert a == s[i..] && b == t[j..];
  }

  lemma {:induction false} AllZeros(n: nat)
    ensures forall i :: 0 <= i < n ==> Zeros(n)[i] == '0'
  {
    if n > 0 {
      AllZeros(n - 1);
    }
  }

  /** How a number was written shows in its parts. */
  lemma FormsTold(digits: Significant, point: int)
    ensures var p := FiniteParts(digits, point);
            && (p.hasExponent <==> point > 21 || point <= -6)
            && (!p.hasExponent ==> (p.frac == [] <==> |digits| <= point) && (p.whole[0] == '0' <==> point <= 0))
            && p.whole != []
  {
  }

  lemma DigitsTold(a: Significant, m: int, b: Significant, n: int)
    requires var p, q := FiniteParts(a, m), FiniteParts(b, n);
             && p.whole == q.whole && p.frac == q.frac && p.hasExponent == q.hasExponent
             && (p.hasExponent ==> p.exponent == q.exponent)
    ensures a == b && m == n
  {
    FormsTold(a, m);
    FormsTold(b, n);
    var p := FiniteParts(a, m);
    if p.hasExponent {
      assert a == a[..1] + a[1..] && b == b[..1] + b[1..];
    } else if p.frac == [] {
      ZerosAfter(a, m - |a|, b, n - |b|);
    } else if m > 0 {
      assert a == a[..m] + a[m..] && b == b[..n] + b[n..];
    } else {
      ZerosBefore(-m, a, -n, b);
    }
  }

  /** The number a text is of: zero has lost its sign. */
  predicate Legible(n: Number) {
    n.Finite? || n == Zero(false)
  }

  lemma PartsTell(m: Number, n: Number)
    requires Legible(m) && Legible(n)
    requires var p, q := PartsOf(m), PartsOf(n);
             && p.whole == q.whole && p.frac == q.frac && p.hasExponent == q.hasExponent
             && (p.hasExponent ==> p.exponent == q.exponent)
    ensures m.Zero? == n.Zero? && (m.Finite? ==> m.digits == n.digits && m.point == n.point)
  {
    if m.Finite? && n.Finite? {
      DigitsTold(m.digits, m.point, n.digits, n.point);
    } else if m.Finite? {
      FormsTold(m.digits, m.point);
    } else if n.Finite? {
      FormsTold(n.digits, n.point);
    }
  }

  function Sign(n: Number): string {
    if n.Finite? && n.negative then "-" else ""
  }

  lemma SignedText(n: Number)
    requires Legible(n)
    ensures PrintNumber(n) == Sign(n) + PartsText(PartsOf(n))
  {
    if n.Zero? {
      ZeroText();
    }
    hide PartsText, PartsOf;
    var t := PartsText(PartsOf(n));
    assert "" + t == t;
  }

  lemma TextStarts(p: Parts)
    requires Printable(p)
    ensures PartsText(p) != [] && IsDigit(PartsText(p)[0])
  {
    hide Tail;
    assert PartsText(p)[0] == p.whole[0];
  }

  lemma Printed(n: Number, r: string)
    requires Legible(n)
    ensures Printable(PartsOf(n))
    ensures PrintNumber(n) + r == Sign(n) + (PartsText(PartsOf(n)) + r)
    ensures PrintNumber(n) != [] && (PrintNumber(n)[0] == '-' <==> Sign(n) == "-")
    ensures IsDigit(PrintNumber(n)[0]) || PrintNumber(n)[0] == '-'
  {
    hide PartsText, PartsOf, PrintNumber;
    FiniteIsPrintable(n);
    SignedText(n);
    var t := PartsText(PartsOf(n));
    TextStarts(PartsOf(n));
    assert Sign(n) + t + r == Sign(n) + (t + r);
    assert (Sign(n) + t)[0] == if Sign(n) == "-" then '-' else t[0];
  }

  lemma ZeroText()
    ensures PartsText(PartsOf(Zero(false))) == "0"
  {
  }

  /** Printed numbers are told apart, also at the start of a longer text. */
  lemma PrintNumberInjective(m: Number, n: Number, r: string, s: string)
    requires Legible(m) && Legible(n) && Ends(r) && Ends(s)
    requires PrintNumber(m) + r == PrintNumber(n) + s
    ensures m == n && r == s
  {
    hide PartsText, PartsOf;
    Printed(m, r);
    Printed(n, s);
    assert (PrintNumber(m) + r)[0] == PrintNumber(m)[0] && (PrintNumber(n) + s)[0] == PrintNumber(n)[0];
    DropPrefix(Sign(m), PartsText(PartsOf(m)) + r, PartsText(PartsOf(n)) + s);
    PartsDiffer(PartsOf(m), PartsOf(n), r, s);
    PartsTell(m, n);
  }

  // ---------------------------------------------------------------- integers

  function Stripped(s: string): (t: string)
    ensures t <= s && (t != [] ==> t[|t| - 1] != '0')
  {
    if s != [] && s[|s| - 1] == '0' then Stripped(s[..|s| - 1]) else s
  }

  lemma {:induction false} PrintNatLeads(n: nat)
    requires n > 0
    ensures PrintNat(n)[0] != '0'
  {
    if n >= 10 {
      PrintNatLeads(n / 10);
    }
  }

  lemma {:induction false} StrippedZeros(s: string)
    ensures s == Stripped(s) + Zeros(|s| - |Stripped(s)|)
  {
    if s != [] && s[|s| - 1] == '0' {
      var front := s[..|s| - 1];
      StrippedZeros(front);
      ZerosSnoc(|front| - |Stripped(front)|);
      assert s == front + "0";
    }
  }

  lemma {:induction false} StrippedLeads(s: string)
    requires s != [] && s[0] != '0'
    ensures Stripped(s) != []
  {
    if s[|s| - 1] == '0' {
      StrippedLeads(s[..|s| - 1]);
    }
  }

  lemma IntegerDigits(n: int)
    requires n != 0
    ensures IsSignificant(Stripped(PrintNat(Magnitude(n))))
  {
    PrintNatLeads(Magnitude(n));
    StrippedLeads(PrintNat(Magnitude(n)));
  }

  /** An integer as a number. */
  function OfInt(n: int): (r: Number)
    ensures Legible(r)
  {
    if n == 0 then Zero(false)
    else
      IntegerDigits(n);
      var s := PrintNat(Magnitude(n));
      Finite(n < 0, Stripped(s), |s|)
  }

  lemma OfIntInjective(m: int, n: int)
    requires OfInt(m) == OfInt(n)
    ensures m == n
  {
    if m != 0 && n != 0 {
      StrippedZeros(PrintNat(Magnitude(m)));
      StrippedZeros(PrintNat(Magnitude(n)));
      ParsePrint(Magnitude(m));
      ParsePrint(Magnitude(n));
    }
  }
}
