/** Decimals as text: what is printed is read back. */
module DecimalText {
  import opened Collections
  import opened Digits
  import opened Text
  import opened Decimals
  import opened DecimalLaws

  // ---------------------------------------------------------------- digit strings

  lemma Tenfold(x: int, p: int, y: int, d: int)
    ensures (x * p + y) * 10 + d == x * (10 * p) + (y * 10 + d)
  {
  }

  lemma {:induction false} ParseConcat(a: string, b: string)
    requires AllDigits(a) && AllDigits(b)
    ensures AllDigits(a + b) && ParseNat(a + b) == ParseNat(a) * Pow10(|b|) + ParseNat(b)
  {
    if b == [] {
      assert a + b == a;
    } else {
      var front, c := b[..|b| - 1], b[|b| - 1];
      ParseConcat(a, front);
      assert (a + b)[..|a + b| - 1] == a + front;
      assert (a + b)[|a + b| - 1] == c;
      Tenfold(ParseNat(a), Pow10(|front|), ParseNat(front), DigitValue(c));
    }
  }

  lemma {:induction false} ParseZeros(n: nat)
    ensures ParseNat(Zeros(n)) == 0
  {
    if n > 0 {
      ParseZeros(n - 1);
      ParseConcat("0", Zeros(n - 1));
    }
  }

  lemma {:induction false} PrintLength(n: nat, k: nat)
    requires k > 0 && n < Pow10(k)
    ensures |PrintNat(n)| <= k
  {
    assert Pow10(1) == 10 * Pow10(0) == 10;
    if n >= 10 && k > 1 {
      PrintLength(n / 10, k - 1);
    }
  }

  lemma PadStartParses(n: nat, k: nat)
    requires k > 0 && n < Pow10(k)
    ensures var s := PadStart(PrintNat(n), k);
            |s| == k && AllDigits(s) && ParseNat(s) == n
  {
    PrintLength(n, k);
    var zeros := Zeros(k - |PrintNat(n)|);
    ParseConcat(zeros, PrintNat(n));
    ParseZeros(|zeros|);
    ParsePrint(n);
    assert zeros + PrintNat(n) == PrintNat(n) || |zeros| > 0;
  }

  lemma {:induction false} StripRestores(s: string)
    requires AllDigits(s)
    ensures AllDigits(StripZeros(s)) && |StripZeros(s)| <= |s|
    ensures PadEnd(StripZeros(s), |s|) == s
    ensures StripZeros(s) == [] ==> ParseNat(s) == 0
  {
    if s != [] && s[|s| - 1] == '0' {
      var front := s[..|s| - 1];
      StripRestores(front);
      var t := StripZeros(s);
      ZerosSnoc(|front| - |t|);
      assert t + Zeros(|s| - |t|) == front + "0" == s;
    }
  }

  lemma {:induction false} TakeAllDigits(a: string, r: string)
    requires AllDigits(a) && (r == [] || !IsDigit(r[0]))
    ensures TakeDigits(a + r) == (a, r)
  {
    if a == [] {
      assert a + r == r;
    } else {
      TakeAllDigits(a[1..], r);
      assert (a + r)[1..] == a[1..] + r;
      assert [a[0]] + a[1..] == a;
    }
  }

  lemma NothingToTrim(s: string)
    requires s != [] && !IsSpace(s[0]) && !IsSpace(s[|s| - 1])
    ensures Trim(s) == s
  {
  }

  // ---------------------------------------------------------------- numerals

  function Fraction(frac: string): string {
    if frac == [] then "" else "." + frac
  }

  lemma ReadUnsigned(negative: bool, whole: string, frac: string)
    requires AllDigits(whole) && AllDigits(frac) && whole != []
    ensures ReadMagnitude(negative, whole + Fraction(frac)) == Some(Numeral(negative, whole, frac, None))
  {
    TakeAllDigits(whole, Fraction(frac));
    TakeAllDigits(frac, "");
    assert frac + "" == frac;
  }

  lemma ReadPlain(negative: bool, whole: string, frac: string)
    requires AllDigits(whole) && AllDigits(frac) && whole != []
    ensures ReadNumeral(Minus(negative) + whole + Fraction(frac)) == Some(Numeral(negative, whole, frac, None))
  {
    hide ReadMagnitude, Fraction;
    var body := whole + Fraction(frac);
    ReadUnsigned(negative, whole, frac);
    assert body[0] == whole[0] && IsDigit(whole[0]);
    assert Minus(negative) + whole + Fraction(frac) == Minus(negative) + body;
    assert ("-" + body)[1..] == body && "" + body == body;
  }

  lemma PlainEnds(negative: bool, whole: string, frac: string)
    requires AllDigits(whole) && AllDigits(frac) && whole != []
    ensures Trim(Minus(negative) + whole + Fraction(frac)) == Minus(negative) + whole + Fraction(frac)
    ensures Minus(negative) + whole + Fraction(frac) != []
  {
    var s := Minus(negative) + whole + Fraction(frac);
    assert s[|s| - 1] == if frac == [] then whole[|whole| - 1] else frac[|frac| - 1];
    assert s[0] == if negative then '-' else whole[0];
    NothingToTrim(s);
  }

  lemma PadEndFits(frac: string)
    requires AllDigits(frac) && |frac| <= SCALE
    ensures AllDigits(PadEnd(frac, SCALE)) && PadEnd(frac, SCALE)[..SCALE] == PadEnd(frac, SCALE)
  {
  }

  lemma FromNumeral(s: string, n: Numeral)
    requires s != [] && Trim(s) == s && ReadNumeral(s) == Some(n) && n.exponent.None?
    ensures FromString(s) == Success(Coefficient(n))
  {
  }

  /** A numeral without exponent is read as its digits say, up to eighteen places. */
  lemma FromPlain(negative: bool, whole: string, frac: string)
    requires AllDigits(whole) && AllDigits(frac) && whole != [] && |frac| <= SCALE
    ensures AllDigits(PadEnd(frac, SCALE))
    ensures FromString(Minus(negative) + whole + Fraction(frac))
         == Success(Decimal(Signed(negative, ParseNat(whole) * FACTOR + ParseNat(PadEnd(frac, SCALE)))))
  {
    hide ReadNumeral, FromString, Trim, Minus, Fraction, PadEnd, ParseNat;
    ReadPlain(negative, whole, frac);
    PlainEnds(negative, whole, frac);
    PadEndFits(frac);
    FromNumeral(Minus(negative) + whole + Fraction(frac), Numeral(negative, whole, frac, None));
  }

  lemma FactorIsPow10()
    ensures Pow10(SCALE) == FACTOR
  {
    assert Pow10(3) == 1000 by { assert Pow10(0) == 1; }
    Pow10Sum(3, 3);
    Pow10Sum(6, 6);
    Pow10Sum(12, 6);
  }

  lemma {:induction false} Pow10Sum(a: nat, b: nat)
    ensures Pow10(a + b) == Pow10(a) * Pow10(b)
  {
    if a > 0 {
      Pow10Sum(a - 1, b);
    }
  }

  lemma ZeroParse()
    ensures FromString("0") == Success(Decimal(0))
  {
    hide FromString, Zeros;
    FromPlain(false, "0", "");
    assert Minus(false) + "0" + Fraction("") == "0";
    assert PadEnd("", SCALE) == Zeros(SCALE);
    ParseZeros(SCALE);
    assert "0"[..0] == "";
  }

  lemma PartsParse(negative: bool, whole: nat, frac: nat)
    requires frac < FACTOR
    ensures var tail := if frac == 0 then "" else "." + StripZeros(PadStart(PrintNat(frac), SCALE));
            var expected := Decimal(Signed(negative, whole * FACTOR + frac));
            FromString(Minus(negative) + PrintNat(whole) + tail) == Success(expected)
  {
    hide FromString, Zeros, PrintNat, PadStart, Minus, ParseNat, StripZeros;
    ParsePrint(whole);
    FactorIsPow10();
    if frac == 0 {
      FromPlain(negative, PrintNat(whole), "");
      assert PadEnd("", SCALE) == Zeros(SCALE);
      ParseZeros(SCALE);
    } else {
      var padded := PadStart(PrintNat(frac), SCALE);
      PadStartParses(frac, SCALE);
      StripRestores(padded);
      FromPlain(negative, PrintNat(whole), StripZeros(padded));
    }
  }

  /** Reading what was printed gives the same decimal, for every decimal. */
  lemma PrintParse(d: Decimal)
    ensures FromString(ToString(d)) == Success(d)
  {
    hide FromString, PrintNat, PadStart, Minus, StripZeros;
    ZeroParse();
    PartsParse(d.raw < 0, Quot(Abs(d.raw), FACTOR), Rem(Abs(d.raw), FACTOR));
  }

  lemma ScaleSplits(places: nat)
    requires places <= SCALE
    ensures Pow10(places) * ScaleFactor(places) == FACTOR
  {
    Pow10Sum(places, SCALE - places);
    FactorIsPow10();
  }

  lemma Associate(w: int, f: int, p: int, s: int)
    ensures w * (p * s) + f * s == (w * p + f) * s
  {
  }

  lemma MinorValue(whole: nat, frac: nat, places: nat, a: nat)
    requires places <= SCALE && a == whole * Pow10(places) + frac
    ensures whole * FACTOR + frac * ScaleFactor(places) == a * ScaleFactor(places)
  {
    hide Pow10, ScaleFactor;
    ScaleSplits(places);
    Associate(whole, frac, Pow10(places), ScaleFactor(places));
  }

  lemma PaddedFraction(frac: string, places: nat)
    requires AllDigits(frac) && |frac| == places <= SCALE
    ensures AllDigits(PadEnd(frac, SCALE)) && ParseNat(PadEnd(frac, SCALE)) == ParseNat(frac) * ScaleFactor(places)
  {
    ParseConcat(frac, Zeros(SCALE - places));
    ParseZeros(SCALE - places);
    assert places == SCALE ==> frac + "" == frac;
  }

  lemma MinorParts(negative: bool, whole: nat, frac: nat, places: nat)
    requires places <= SCALE && frac < Pow10(places)
    ensures var tail := if places == 0 then "" else "." + PadStart(PrintNat(frac), places);
            var expected := Decimal(Signed(negative, whole * FACTOR + frac * ScaleFactor(places)));
            FromString(Minus(negative) + PrintNat(whole) + tail) == Success(expected)
  {
    hide FromString, PrintNat, PadStart, PadEnd, Minus, Pow10, ParseNat, ScaleFactor;
    ParsePrint(whole);
    Pow10Zero();
    if places == 0 {
      FromPlain(negative, PrintNat(whole), "");
      PaddedFraction("", 0);
      assert ParseNat("") == 0 by { ParseNothing(); }
    } else {
      PadStartParses(frac, places);
      var digits := PadStart(PrintNat(frac), places);
      FromPlain(negative, PrintNat(whole), digits);
      PaddedFraction(digits, places);
    }
  }

  lemma ParseNothing()
    ensures ParseNat("") == 0
  {
  }

  /** An amount of minor units printed with its places reads as that amount. */
  lemma PrintMinorParse(minor: int, places: nat)
    requires places <= SCALE
    ensures FromString(PrintMinor(minor, places)) == FromMinorUnits(minor, places)
  {
    hide FromString, PrintNat, PadStart, Minus, Pow10, ScaleFactor;
    var a := Abs(minor);
    var whole, frac := Quot(a, Pow10(places)), Rem(a, Pow10(places));
    MinorParts(minor < 0, whole, frac, places);
    MinorValue(whole, frac, places, a);
    SignedProduct(minor < 0, a, ScaleFactor(places));
  }

  lemma Pow10Zero()
    ensures Pow10(0) == 1
  {
  }

  /** Reading a decimal printed to a fixed number of places gives the decimal rounded to them. */
  lemma FixedParse(d: Decimal, places: nat, mode: RoundingMode)
    ensures ToFixed(d, places, mode).Success? <==> places <= SCALE
    ensures places <= SCALE ==> FromString(ToFixed(d, places, mode).value) == Round(d, places, mode)
  {
    hide FromString, PrintMinor, Scaled;
    if places <= SCALE {
      PrintMinorParse(ToMinorUnits(d, places, mode).value, places);
    }
  }

  // ---------------------------------------------------------------- exponents and long fractions

  /** A numeral without exponent, of any length. */
  function Plain(negative: bool, whole: string, frac: string): string {
    Minus(negative) + whole + Fraction(frac)
  }

  lemma PlainReads(negative: bool, whole: string, frac: string)
    requires AllDigits(whole) && AllDigits(frac) && whole != []
    ensures FromString(Plain(negative, whole, frac)) == Success(Coefficient(Numeral(negative, whole, frac, None)))
  {
    hide ReadNumeral, FromString, Trim, Minus, Fraction, PadEnd, ParseNat;
    ReadPlain(negative, whole, frac);
    PlainEnds(negative, whole, frac);
    FromNumeral(Plain(negative, whole, frac), Numeral(negative, whole, frac, None));
  }

  /** The text of an exponent. */
  datatype Exponent = Exponent(mark: char, sign: string, digits: string)

  predicate IsExponent(x: Exponent) {
    && (x.mark == 'e' || x.mark == 'E')
    && (x.sign == "" || x.sign == "+" || x.sign == "-")
    && x.digits != [] && AllDigits(x.digits)
  }

  function ExponentText(x: Exponent): string {
    [x.mark] + x.sign + x.digits
  }

  function ExponentValue(x: Exponent): int
    requires IsExponent(x)
  {
    Signed(x.sign == "-", ParseNat(x.digits))
  }

  lemma ReadsExponent(x: Exponent)
    requires IsExponent(x)
    ensures ReadExponent(ExponentText(x)) == Some(Some(ExponentValue(x)))
  {
    hide ParseNat;
    var s := ExponentText(x);
    TakeAllDigits(x.digits, "");
    assert x.digits + "" == x.digits;
    if x.sign == "" {
      assert s[1..] == x.digits && IsDigit(s[1]);
    } else {
      assert s[1] == x.sign[0] && s[2..] == x.digits;
    }
  }

  lemma FractionForm(frac: string, x: Exponent)
    requires IsExponent(x)
    ensures var tail, rest := ExponentText(x), Fraction(frac) + ExponentText(x);
            && tail != [] && !IsDigit(tail[0]) && tail[0] != '.'
            && rest != [] && !IsDigit(rest[0])
            && if frac == [] then rest == tail else rest[0] == '.' && rest[1..] == frac + tail
  {
    var tail := ExponentText(x);
    assert tail[0] == x.mark;
    hide ExponentText;
    if frac == [] {
      assert Fraction(frac) + tail == tail;
    } else {
      assert Fraction(frac) + tail == "." + (frac + tail);
    }
  }

  lemma ReadScientific(negative: bool, whole: string, frac: string, x: Exponent)
    requires AllDigits(whole) && AllDigits(frac) && whole != [] && IsExponent(x)
    ensures ReadMagnitude(negative, whole + (Fraction(frac) + ExponentText(x)))
         == Some(Numeral(negative, whole, frac, Some(ExponentValue(x))))
  {
    hide ReadExponent, ExponentValue, TakeDigits, ExponentText;
    ReadsExponent(x);
    var tail := ExponentText(x);
    FractionForm(frac, x);
    hide Fraction;
    TakeAllDigits(whole, Fraction(frac) + tail);
    if frac != [] {
      TakeAllDigits(frac, tail);
    }
  }

  lemma ScientificShape(negative: bool, whole: string, frac: string, x: Exponent)
    requires AllDigits(whole) && whole != [] && IsExponent(x)
    ensures var s, body := Plain(negative, whole, frac) + ExponentText(x), whole + (Fraction(frac) + ExponentText(x));
            && s != [] && !IsSpace(s[0]) && !IsSpace(s[|s| - 1])
            && (s[0] == '-' <==> negative)
            && (if negative then s[1..] == body else s == body)
  {
    hide Fraction;
    var s, body := Plain(negative, whole, frac) + ExponentText(x), whole + (Fraction(frac) + ExponentText(x));
    assert s == Minus(negative) + body;
    assert s[0] == if negative then '-' else whole[0];
    assert s[|s| - 1] == x.digits[|x.digits| - 1];
  }

  lemma ScientificNumeral(negative: bool, whole: string, frac: string, x: Exponent)
    requires AllDigits(whole) && AllDigits(frac) && whole != [] && IsExponent(x)
    ensures ReadNumeral(Plain(negative, whole, frac) + ExponentText(x))
         == Some(Numeral(negative, whole, frac, Some(ExponentValue(x))))
    ensures Trim(Plain(negative, whole, frac) + ExponentText(x)) == Plain(negative, whole, frac) + ExponentText(x)
  {
    hide ReadMagnitude, ExponentValue, Trim, Plain, ExponentText, Fraction;
    ReadScientific(negative, whole, frac, x);
    ScientificShape(negative, whole, frac, x);
    NothingToTrim(Plain(negative, whole, frac) + ExponentText(x));
  }

  /** A numeral with an exponent reads as the numeral without it, times that power of ten: exactly if
      the exponent is not negative, and otherwise rounded once, half away from zero. */
  lemma ExponentsScale(negative: bool, whole: string, frac: string, x: Exponent)
    requires AllDigits(whole) && AllDigits(frac) && whole != [] && IsExponent(x)
    ensures var c := FromString(Plain(negative, whole, frac));
            var r := FromString(Plain(negative, whole, frac) + ExponentText(x));
            var k := ExponentValue(x);
            && c.Success? && r.Success?
            && (k >= 0 ==> r.value.raw == c.value.raw * Pow10(k))
            && (k < 0 ==> Nearest(c.value.raw, Pow10(-k), r.value.raw))
  {
    hide ReadNumeral, Trim, Plain, ExponentText, ExponentValue, Shifted, Coefficient, Nearest;
    PlainReads(negative, whole, frac);
    ScientificNumeral(negative, whole, frac, x);
    PlainNonempty(negative, whole, frac);
    ShiftedScales(Coefficient(Numeral(negative, whole, frac, None)), ExponentValue(x));
    SameCoefficient(negative, whole, frac, ExponentValue(x));
  }

  lemma SameCoefficient(negative: bool, whole: string, frac: string, k: int)
    requires AllDigits(whole) && AllDigits(frac)
    ensures Coefficient(Numeral(negative, whole, frac, Some(k))) == Coefficient(Numeral(negative, whole, frac, None))
  {
  }

  lemma PlainNonempty(negative: bool, whole: string, frac: string)
    requires whole != []
    ensures Plain(negative, whole, frac) != []
  {
  }

  lemma ShiftedScales(c: Decimal, k: int)
    ensures k >= 0 ==> Shifted(c, k) == Success(Decimal(c.raw * Pow10(k)))
    ensures k < 0 ==> Shifted(c, k).Success? && Nearest(c.raw, Pow10(-k), Shifted(c, k).value.raw)
  {
    if k >= 0 {
      MulByInt(Pow10(k), c);
    } else {
      DivRounds(c, FromInt(Pow10(-k)));
      CancelFactor(c.raw, Pow10(-k), Shifted(c, k).value.raw);
    }
  }

  lemma CancelFactor(n: int, d: nat, r: int)
    requires d > 0 && Nearest(n * FACTOR, d * FACTOR, r)
    ensures Nearest(n, d, r)
  {
    assert r * (d * FACTOR) == (r * d) * FACTOR;
  }

  /** Without an exponent, digits beyond the eighteenth place are cut off, not rounded. */
  lemma LongFractionsAreCut(negative: bool, whole: string, frac: string)
    requires AllDigits(whole) && AllDigits(frac) && whole != [] && |frac| > SCALE
    ensures FromString(Plain(negative, whole, frac)) == FromString(Plain(negative, whole, frac[..SCALE]))
  {
    hide FromString, Plain, ParseNat;
    PlainReads(negative, whole, frac);
    PlainReads(negative, whole, frac[..SCALE]);
    assert PadEnd(frac, SCALE)[..SCALE] == frac[..SCALE] == PadEnd(frac[..SCALE], SCALE)[..SCALE];
  }

  /** So the same number can read as two decimals: half of 10^-18 with an exponent, and without. */
  lemma SpellingsDiffer()
    ensures FromString("5e-19") == Success(Decimal(1))
    ensures FromString("0." + Zeros(18) + "5") == Success(Decimal(0))
  {
    HalfRoundsUp();
    HalfIsCut();
  }

  lemma HalfIsCut()
    ensures FromString("0." + Zeros(18) + "5") == Success(Decimal(0))
  {
    hide FromString, Zeros, PadEnd, Plain;
    LongFractionsAreCut(false, "0", Zeros(18) + "5");
    assert (Zeros(18) + "5")[..SCALE] == Zeros(18);
    PlainForm(Zeros(18) + "5");
    SmallFraction();
  }

  lemma PlainForm(frac: string)
    requires frac != []
    ensures Plain(false, "0", frac) == "0." + frac && "0." + Zeros(18) + "5" == "0." + (Zeros(18) + "5")
  {
    hide Zeros;
  }

  lemma SmallFraction()
    ensures FromString(Plain(false, "0", Zeros(18))) == Success(Decimal(0))
  {
    hide FromString, Zeros, ParseNat;
    FromPlain(false, "0", Zeros(18));
    assert PadEnd(Zeros(18), SCALE) == Zeros(18);
    ParseZeros(18);
    assert ParseNat("0") == 0 by { ParseZeros(1); OneZero(); }
  }

  lemma OneZero()
    ensures Zeros(1) == "0"
  {
    assert Zeros(0) == "";
  }

  lemma HalfRoundsUp()
    ensures FromString("5e-19") == Success(Decimal(1))
  {
    hide FromString, Zeros, Nearest, Pow10, ParseNat;
    var x := Exponent('e', "-", "19");
    ExponentsScale(false, "5", "", x);
    assert Plain(false, "5", "") == "5" && "5" + ExponentText(x) == "5e-19";
    SmallNumerals();
    FiveRead();
    PowerOfNineteen();
    NearestUnique(5 * FACTOR, Pow10(19), 1, FromString("5e-19").value.raw);
  }

  lemma SmallNumerals()
    ensures ParseNat("5") == 5 && ParseNat("19") == 19
  {
    assert "5"[..0] == "" && "19"[..1] == "1" && "1"[..0] == "";
  }

  lemma FiveRead()
    ensures FromString("5") == Success(Decimal(5 * FACTOR))
  {
    hide FromString, Zeros, ParseNat;
    FromPlain(false, "5", "");
    assert Minus(false) + "5" + Fraction("") == "5";
    assert PadEnd("", SCALE) == Zeros(SCALE);
    ParseZeros(SCALE);
    SmallNumerals();
  }

  lemma PowerOfNineteen()
    ensures Pow10(19) == 10 * FACTOR && Nearest(5 * FACTOR, Pow10(19), 1)
  {
    FactorIsPow10();
    assert Pow10(19) == 10 * Pow10(18);
  }
}
