/** Fixed-point decimals at scale 10^18 (packages/money/src/decimal.ts). */
module Decimals {
  import opened Collections
  import opened Digits
  import opened Text

  const SCALE: nat := 18
  const FACTOR: int := 1_000_000_000_000_000_000

  /** A decimal is its value times 10^18. */
  datatype Decimal = Decimal(raw: int)

  datatype RoundingMode = HalfUp | HalfEven | Up | Down | Ceil | Floor

  datatype DecimalError = EmptyString | InvalidFormat | DivisionByZero | ZeroUnits | NegativePlaces | OutOfRange

  function Abs(n: int): nat {
    if n < 0 then -n else n
  }

  function Signed(negative: bool, n: int): int {
    if negative then -n else n
  }

  function Pow10(n: nat): (p: nat)
    ensures p >= 1
  {
    if n == 0 then 1 else 10 * Pow10(n - 1)
  }

  /** Division of magnitudes, ... */
  function Quot(a: nat, b: nat): (q: nat)
    requires b > 0
    ensures q == a / b
    ensures q * b <= a < q * b + b
  {
    a / b
  }

  /** ... and what it leaves. */
  function Rem(a: nat, b: nat): (r: nat)
    requires b > 0
    ensures r == a % b
    ensures r < b && a == Quot(a, b) * b + r
  {
    a % b
  }

  // ---------------------------------------------------------------- arithmetic

  function Add(a: Decimal, b: Decimal): Decimal {
    Decimal(a.raw + b.raw)
  }

  function Mul(a: Decimal, b: Decimal): Decimal {
    var product := a.raw * b.raw;
    Decimal(Signed(product < 0, Quot(Abs(product) + FACTOR / 2, FACTOR)))
  }

  function Div(a: Decimal, b: Decimal): Result<Decimal, DecimalError> {
    if b.raw == 0 then Failure(DivisionByZero)
    else
      var num := a.raw * FACTOR;
      Success(Decimal(Signed((num < 0) != (b.raw < 0), Quot(Abs(num) + Abs(b.raw) / 2, Abs(b.raw)))))
  }

  function FromInt(n: int): Decimal {
    Decimal(n * FACTOR)
  }

  /** The price of a quantity, where `price` is per `perUnits`. */
  function FromUnits(quantity: Decimal, price: Decimal, perUnits: Decimal): Result<Decimal, DecimalError> {
    if perUnits.raw == 0 then Failure(ZeroUnits) else Div(Mul(quantity, price), perUnits)
  }

  // ---------------------------------------------------------------- rounding

  /** The digit to keep, from the magnitude's quotient and remainder by the scale. */
  function RoundMagnitude(mode: RoundingMode, negative: bool, whole: nat, rem: nat, half: nat): nat {
    match mode
    case HalfUp => if rem >= half then whole + 1 else whole
    case HalfEven =>
      if rem > half then whole + 1
      else if rem < half then whole
      else if whole % 2 == 0 then whole else whole + 1
    case Up => if rem > 0 then whole + 1 else whole
    case Down => whole
    case Ceil => if negative then whole else if rem > 0 then whole + 1 else whole
    case Floor => if negative then (if rem > 0 then whole + 1 else whole) else whole
  }

  /** The scale of a number of places; more than 18 of them is a range error. */
  function ScaleFactor(places: int): nat
    requires places <= SCALE
  {
    Pow10(SCALE - places)
  }

  function Scaled(raw: int, scale: nat, mode: RoundingMode): int
    requires scale > 0
  {
    var a := Abs(raw);
    Signed(raw < 0, RoundMagnitude(mode, raw < 0, Quot(a, scale), Rem(a, scale), scale / 2))
  }

  function ToMinorUnits(d: Decimal, places: int, mode: RoundingMode): Result<int, DecimalError> {
    if places > SCALE then Failure(OutOfRange) else Success(Scaled(d.raw, ScaleFactor(places), mode))
  }

  function FromMinorUnits(minor: int, places: int): Result<Decimal, DecimalError> {
    if places > SCALE then Failure(OutOfRange) else Success(Decimal(minor * ScaleFactor(places)))
  }

  function Round(d: Decimal, places: int, mode: RoundingMode): Result<Decimal, DecimalError> {
    var minor := ToMinorUnits(d, places, mode);
    if minor.Failure? then Failure(minor.error) else FromMinorUnits(minor.value, places)
  }

  // ---------------------------------------------------------------- printing

  function PadStart(s: string, n: nat): string {
    if |s| >= n then s else Zeros(n - |s|) + s
  }

  function PadEnd(s: string, n: nat): string {
    if |s| >= n then s else s + Zeros(n - |s|)
  }

  function StripZeros(s: string): string {
    if s != [] && s[|s| - 1] == '0' then StripZeros(s[..|s| - 1]) else s
  }

  function Minus(negative: bool): string {
    if negative then "-" else ""
  }

  function ToString(d: Decimal): string {
    if d.raw == 0 then "0"
    else
      var a := Abs(d.raw);
      var whole, frac := Quot(a, FACTOR), Rem(a, FACTOR);
      Minus(d.raw < 0) + PrintNat(whole)
      + if frac == 0 then "" else "." + StripZeros(PadStart(PrintNat(frac), SCALE))
  }

  function ToFixed(d: Decimal, places: int, mode: RoundingMode): Result<string, DecimalError> {
    if places < 0 then Failure(NegativePlaces)
    else
      var minor := ToMinorUnits(d, places, mode);
      if minor.Failure? then Failure(minor.error) else Success(PrintMinor(minor.value, places))
  }

  function PrintMinor(minor: int, places: nat): string {
    var a := Abs(minor);
    var whole, frac := Quot(a, Pow10(places)), Rem(a, Pow10(places));
    Minus(minor < 0) + PrintNat(whole) + if places == 0 then "" else "." + PadStart(PrintNat(frac), places)
  }

  // ---------------------------------------------------------------- parsing

  function TakeDigits(s: string): (r: (string, string))
    ensures r.0 + r.1 == s && AllDigits(r.0)
    ensures r.1 == [] || !IsDigit(r.1[0])
  {
    if s == [] || !IsDigit(s[0]) then ("", s)
    else
      var (a, b) := TakeDigits(s[1..]);
      ([s[0]] + a, b)
  }

  /** The parts of a numeral: optional minus, digits, optional fraction, optional exponent. */
  datatype Numeral = Numeral(negative: bool, whole: string, frac: string, exponent: Option<int>)

  ghost predicate WellFormed(n: Numeral) {
    AllDigits(n.whole) && AllDigits(n.frac)
  }

  /** What follows the digits: nothing, or an exponent; the outer option is whether it reads at all. */
  function ReadExponent(s: string): Option<Option<int>> {
    if s == [] then Some(None)
    else if s[0] != 'e' && s[0] != 'E' then None
    else
      var signed := |s| > 1 && (s[1] == '-' || s[1] == '+');
      var (digits, rest) := TakeDigits(if signed then s[2..] else s[1..]);
      if digits == [] || rest != [] then None else Some(Some(Signed(signed && s[1] == '-', ParseNat(digits))))
  }

  function ReadMagnitude(negative: bool, s: string): (r: Option<Numeral>)
    ensures r.Some? ==> WellFormed(r.value)
  {
    var (whole, rest) := TakeDigits(s);
    if whole == [] then None
    else
      var point := rest != [] && rest[0] == '.';
      var (frac, tail) := TakeDigits(if point then rest[1..] else "");
      if point && frac == [] then None
      else
        var exponent := ReadExponent(if point then tail else rest);
        if exponent.None? then None else Some(Numeral(negative, whole, frac, exponent.value))
  }

  function ReadNumeral(s: string): (r: Option<Numeral>)
    ensures r.Some? ==> WellFormed(r.value)
  {
    var negative := s != [] && s[0] == '-';
    ReadMagnitude(negative, if negative then s[1..] else s)
  }

  /** Digits beyond the eighteenth are cut off. */
  function Coefficient(n: Numeral): Decimal
    requires WellFormed(n)
  {
    var padded := PadEnd(n.frac, SCALE);
    Decimal(Signed(n.negative, ParseNat(n.whole) * FACTOR + ParseNat(padded[..SCALE])))
  }

  /** Powers of ten are applied by decimal multiplication and division. */
  function Shifted(c: Decimal, exponent: int): Result<Decimal, DecimalError> {
    if exponent >= 0 then Success(Mul(c, Decimal(Pow10(exponent) * FACTOR)))
    else Div(c, Decimal(Pow10(-exponent) * FACTOR))
  }

  function FromString(str: string): Result<Decimal, DecimalError> {
    var s := Trim(str);
    if s == [] then Failure(EmptyString)
    else
      match ReadNumeral(s)
      case None => Failure(InvalidFormat)
      case Some(n) => if n.exponent.None? then Success(Coefficient(n)) else Shifted(Coefficient(n), n.exponent.value)
  }
}
