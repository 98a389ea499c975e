/** Minor currency units by way of text (packages/payments/src/types.ts). */
module Payments {
  import opened Collections
  import opened Digits
  import opened Text
  import opened Decimals
  import opened DecimalLaws
  import opened DecimalText

  const ZERO_DECIMAL_CURRENCIES: set<string> :=
    {"BIF", "CLP", "DJF", "GNF", "ISK", "JPY", "KMF", "KRW", "PYG", "RWF", "UGX", "VND", "VUV", "XAF", "XOF", "XPF"}

  const THREE_DECIMAL_CURRENCIES: set<string> := {"BHD", "JOD", "KWD", "OMR", "TND"}

  function DecimalPlaces(currency: string): (n: nat)
    ensures n == 0 || n == 2 || n == 3
  {
    var code := Upper(currency);
    if code in ZERO_DECIMAL_CURRENCIES then 0
    else if code in THREE_DECIMAL_CURRENCIES then 3
    else 2
  }

  /** Reading an integer: the empty string is zero. */
  function ReadInt(s: string): Option<int> {
    var negative := s != [] && s[0] == '-';
    var digits := if negative then s[1..] else s;
    if exists i :: 0 <= i < |digits| && !IsDigit(digits[i]) then None
    else if negative && digits == [] then None
    else Some(Signed(negative, ParseNat(digits)))
  }

  /** The fixed-point text with its point taken out. */
  function ToMinorText(text: string, places: nat): Option<int> {
    var parts := Split(text, '.');
    var frac := if |parts| > 1 then parts[1] else "";
    var padded := PadEnd(frac, places)[..places];
    ReadInt(parts[0] + padded)
  }

  function ToMinor(amount: Decimal, currency: string): Option<int> {
    var places := DecimalPlaces(currency);
    var text := ToFixed(amount, places, HalfUp);
    if text.Failure? then None else ToMinorText(text.value, places)
  }

  function FromMinor(minor: int, currency: string): Result<Decimal, DecimalError> {
    var places := DecimalPlaces(currency);
    if places == 0 then FromString(PrintInt(minor))
    else
      var a := Abs(minor);
      var factor := Pow10(places);
      FromString(Minus(minor < 0) + PrintNat(Quot(a, factor)) + "." + PadStart(PrintNat(Rem(a, factor)), places))
  }

  // ---------------------------------------------------------------- laws

  lemma NoPoint(s: string)
    requires AllDigits(s)
    ensures '.' !in s && '.' !in "-" + s
  {
  }

  lemma ReadSigned(negative: bool, digits: string)
    requires AllDigits(digits) && digits != []
    ensures ReadInt(Minus(negative) + digits) == Some(Signed(negative, ParseNat(digits)))
  {
    var s := Minus(negative) + digits;
    assert (if negative then s[1..] else s) == digits;
  }

  lemma SplitPrinted(head: string, frac: string, places: nat)
    requires '.' !in head && '.' !in frac && |frac| == places
    ensures places > 0 ==> ToMinorText(head + "." + frac, places) == ReadInt(head + frac)
    ensures places == 0 ==> ToMinorText(head, places) == ReadInt(head)
  {
    if places > 0 {
      SplitFirst(head, '.', frac);
      SplitWhole(frac, '.');
      assert head + "." + frac == head + ['.'] + frac;
      assert PadEnd(frac, places)[..places] == frac;
    } else {
      SplitWhole(head, '.');
      assert PadEnd("", 0)[..0] == "" && head + "" == head;
    }
  }

  lemma MinorTextValue(minor: int, places: nat)
    ensures ToMinorText(PrintMinor(minor, places), places) == Some(minor)
  {
    hide ToMinorText, ReadInt, PrintNat, PadStart, Pow10, ParseNat;
    var a := Abs(minor);
    var p := Pow10(places);
    var whole, frac := Quot(a, p), Rem(a, p);
    var head := Minus(minor < 0) + PrintNat(whole);
    var digits := if places == 0 then "" else PadStart(PrintNat(frac), places);
    ParsePrint(whole);
    NoPoint(PrintNat(whole));
    Pow10Zero();
    ParseNothing();
    if places > 0 {
      PadStartParses(frac, places);
      NoPoint(digits);
    }
    SplitPrinted(head, digits, places);
    ParseConcat(PrintNat(whole), digits);
    ReadSigned(minor < 0, PrintNat(whole) + digits);
    assert head + digits == Minus(minor < 0) + (PrintNat(whole) + digits);
    assert PrintMinor(minor, places) == if places == 0 then head else head + "." + digits;
    assert whole * p + frac == a;
    assert |digits| == places;
  }

  /** The way through text gives the arithmetic result, for every amount and currency. */
  lemma TextIsArithmetic(amount: Decimal, currency: string)
    ensures ToMinorUnits(amount, DecimalPlaces(currency), HalfUp).Success?
    ensures ToMinor(amount, currency) == Some(ToMinorUnits(amount, DecimalPlaces(currency), HalfUp).value)
  {
    hide ToMinorText, PrintMinor, DecimalPlaces, Scaled;
    var places := DecimalPlaces(currency);
    MinorTextValue(ToMinorUnits(amount, places, HalfUp).value, places);
  }

  /** Minor units become the decimal they stand for. */
  lemma FromMinorIsExact(minor: int, currency: string)
    ensures FromMinor(minor, currency) == FromMinorUnits(minor, DecimalPlaces(currency))
  {
    hide FromString, PrintNat, PadStart, DecimalPlaces, FromMinorUnits, Pow10;
    var places := DecimalPlaces(currency);
    PrintMinorParse(minor, places);
    Pow10Zero();
    if places > 0 {
      var a, f := Abs(minor), Pow10(places);
      var digits := PadStart(PrintNat(Rem(a, f)), places);
      assert Minus(minor < 0) + PrintNat(Quot(a, f)) + "." + digits == PrintMinor(minor, places);
    } else {
      assert Quot(Abs(minor), 1) == Abs(minor);
      assert PrintMinor(minor, 0) == PrintInt(minor);
    }
  }

  /** Minor units come back unchanged, for every currency. */
  lemma MinorUnitsRoundTrip(minor: int, currency: string)
    ensures FromMinor(minor, currency).Success?
    ensures ToMinor(FromMinor(minor, currency).value, currency) == Some(minor)
  {
    hide ToMinor, FromMinor, DecimalPlaces;
    FromMinorIsExact(minor, currency);
    TextIsArithmetic(FromMinor(minor, currency).value, currency);
    MinorUnitsReturn(minor, DecimalPlaces(currency), HalfUp);
  }

  /** What is lost on the way to minor units and back is at most half a minor unit. */
  lemma AmountRoundTrip(amount: Decimal, currency: string)
    ensures ToMinor(amount, currency).Some?
    ensures var back := FromMinor(ToMinor(amount, currency).value, currency);
            back.Success? && 2 * Abs(back.value.raw - amount.raw) <= ScaleFactor(DecimalPlaces(currency))
  {
    hide ToMinor, FromMinor, DecimalPlaces;
    TextIsArithmetic(amount, currency);
    FromMinorIsExact(ToMinor(amount, currency).value, currency);
    RoundError(amount, DecimalPlaces(currency), HalfUp);
  }
}
