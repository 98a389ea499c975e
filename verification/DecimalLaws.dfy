/** Laws of decimal arithmetic: how each operation rounds, and by how much. */
module DecimalLaws {
  import opened Collections
  import opened Decimals

  // ---------------------------------------------------------------- nearest, ties away from zero

  /** `r` is the integer nearest to `n / d`; of two that are equally near, the one away from zero. */
  predicate Nearest(n: int, d: int, r: int) {
    d > 0 &&
    if n >= 0 then 2 * (r * d) - d <= 2 * n < 2 * (r * d) + d
    else 2 * (r * d) - d < 2 * n <= 2 * (r * d) + d
  }

  lemma Ordered(g: int, k: int, d: int)
    requires d > 0
    ensures (g >= k ==> g * d >= k * d) && (g <= k ==> g * d <= k * d)
  {
    assert g * d - k * d == (g - k) * d;
  }

  lemma NearestOrdered(m: int, n: int, d: int, r: int, s: int)
    requires m <= n && Nearest(m, d, r) && Nearest(n, d, s)
    ensures r <= s
  {
    var gap := r - s;
    assert gap * d == r * d - s * d;
    Ordered(gap, 1, d);
  }

  lemma NearestUnique(n: int, d: int, r: int, s: int)
    requires Nearest(n, d, r) && Nearest(n, d, s)
    ensures r == s
  {
    NearestOrdered(n, n, d, r, s);
    NearestOrdered(n, n, d, s, r);
  }

  /** The error is at most half a unit. */
  lemma NearestError(n: int, d: int, r: int)
    requires Nearest(n, d, r)
    ensures 2 * Abs(r * d - n) <= d
  {
  }

  lemma HalfUpMagnitude(n: nat, d: nat)
    requires d > 0
    ensures Nearest(n, d, Quot(n + d / 2, d))
  {
    var q := Quot(n + d / 2, d);
    assert q * d <= n + d / 2 < q * d + d;
  }

  lemma NearestSigned(negative: bool, n: nat, d: nat, q: nat)
    requires Nearest(n, d, q)
    requires negative ==> n > 0 || q == 0
    ensures Nearest(Signed(negative, n), d, Signed(negative, q))
  {
    assert Signed(negative, q) * d == Signed(negative, q * d);
  }

  lemma ZeroIsNearest(d: nat)
    requires d > 0
    ensures Quot(0 + d / 2, d) == 0
  {
    HalfUpMagnitude(0, d);
    NearestUnique(0, d, Quot(d / 2, d), 0);
  }

  /** A product is rounded once, to the nearest multiple of 10^-18. */
  lemma MulRounds(a: Decimal, b: Decimal)
    ensures Nearest(a.raw * b.raw, FACTOR, Mul(a, b).raw)
  {
    var product := a.raw * b.raw;
    HalfUpMagnitude(Abs(product), FACTOR);
    NearestSigned(product < 0, Abs(product), FACTOR, Quot(Abs(product) + FACTOR / 2, FACTOR));
  }

  /** So is a quotient; division by zero is an error. */
  lemma DivRounds(a: Decimal, b: Decimal)
    ensures Div(a, b).Failure? <==> b.raw == 0
    ensures b.raw != 0 ==> Nearest(Signed(b.raw < 0, a.raw * FACTOR), Abs(b.raw), Div(a, b).value.raw)
  {
    if b.raw != 0 {
      var num, den := a.raw * FACTOR, Abs(b.raw);
      var q := Quot(Abs(num) + den / 2, den);
      HalfUpMagnitude(Abs(num), den);
      if num == 0 {
        ZeroIsNearest(den);
      }
      NearestSigned((num < 0) != (b.raw < 0), Abs(num), den, q);
    }
  }

  // ---------------------------------------------------------------- exact steps

  lemma MulByInt(q: int, d: Decimal)
    ensures Mul(FromInt(q), d) == Decimal(q * d.raw)
    ensures Mul(d, FromInt(q)) == Decimal(d.raw * q)
  {
    var exact := q * d.raw;
    MulRounds(FromInt(q), d);
    MulRounds(d, FromInt(q));
    assert FromInt(q).raw * d.raw == exact * FACTOR by { Reassociate(q, d.raw); }
    assert d.raw * FromInt(q).raw == exact * FACTOR by { Reassociate(q, d.raw); }
    assert Nearest(exact * FACTOR, FACTOR, exact);
    NearestUnique(exact * FACTOR, FACTOR, exact, Mul(FromInt(q), d).raw);
    NearestUnique(exact * FACTOR, FACTOR, exact, Mul(d, FromInt(q)).raw);
  }

  lemma Reassociate(q: int, r: int)
    ensures (q * FACTOR) * r == (q * r) * FACTOR
    ensures r * (q * FACTOR) == (q * r) * FACTOR
  {
  }

  // ---------------------------------------------------------------- prices

  /** The price of `q` units is the exact `q * price / u`, rounded once: the multiplication inside
      loses nothing. */
  lemma FromUnitsRoundsOnce(q: int, price: Decimal, u: int)
    ensures FromUnits(FromInt(q), price, FromInt(u)).Failure? <==> u == 0
    ensures u != 0 ==>
              Nearest(Signed(u < 0, q * price.raw), Abs(u), FromUnits(FromInt(q), price, FromInt(u)).value.raw)
  {
    if u != 0 {
      var n := q * price.raw;
      MulByInt(q, price);
      DivRounds(Decimal(n), FromInt(u));
      var r := FromUnits(FromInt(q), price, FromInt(u)).value.raw;
      assert Abs(FromInt(u).raw) == Abs(u) * FACTOR;
      assert r * (Abs(u) * FACTOR) == (r * Abs(u)) * FACTOR by { Reassociate(Abs(u), r); MulCommutes(r, Abs(u)); }
    }
  }

  lemma MulCommutes(a: int, b: int)
    ensures a * b == b * a
  {
  }

  /** A larger quantity never costs less. */
  lemma FromUnitsMonotone(q: int, more: int, price: Decimal, u: int)
    requires q <= more && price.raw >= 0 && u > 0
    ensures FromUnits(FromInt(q), price, FromInt(u)).value.raw
         <= FromUnits(FromInt(more), price, FromInt(u)).value.raw
  {
    FromUnitsRoundsOnce(q, price, u);
    FromUnitsRoundsOnce(more, price, u);
    MulOrdered(q, more, price.raw);
    NearestOrdered(q * price.raw, more * price.raw, u,
                   FromUnits(FromInt(q), price, FromInt(u)).value.raw,
                   FromUnits(FromInt(more), price, FromInt(u)).value.raw);
  }

  lemma MulOrdered(a: int, b: int, c: int)
    requires a <= b && c >= 0
    ensures a * c <= b * c
  {
    assert b * c - a * c == (b - a) * c;
  }

  /** Billing a quantity in two parts changes the total by at most one unit of 10^-18. */
  lemma SplittingCostsLittle(q1: int, q2: int, price: Decimal, u: int)
    requires u > 0
    ensures var whole := FromUnits(FromInt(q1 + q2), price, FromInt(u)).value.raw;
            var parts := FromUnits(FromInt(q1), price, FromInt(u)).value.raw
                       + FromUnits(FromInt(q2), price, FromInt(u)).value.raw;
            -1 <= whole - parts <= 1
  {
    hide FromUnits, FromInt, Nearest;
    FromUnitsRoundsOnce(q1 + q2, price, u);
    FromUnitsRoundsOnce(q1, price, u);
    FromUnitsRoundsOnce(q2, price, u);
    assert (q1 + q2) * price.raw == q1 * price.raw + q2 * price.raw;
    NearestSplit(q1 * price.raw, q2 * price.raw, u,
                 FromUnits(FromInt(q1 + q2), price, FromInt(u)).value.raw,
                 FromUnits(FromInt(q1), price, FromInt(u)).value.raw,
                 FromUnits(FromInt(q2), price, FromInt(u)).value.raw);
  }

  lemma NearestSplit(m: int, n: int, d: int, r: int, s: int, t: int)
    requires Nearest(m + n, d, r) && Nearest(m, d, s) && Nearest(n, d, t)
    ensures -1 <= r - (s + t) <= 1
  {
    var gap := r - (s + t);
    var whole, parts := r * d, (s + t) * d;
    assert parts == s * d + t * d;
    assert gap * d == whole - parts;
    NearestError(m + n, d, r);
    NearestError(m, d, s);
    NearestError(n, d, t);
    hide Nearest;
    Ordered(gap, 2, d);
    Ordered(gap, -2, d);
  }

  // ---------------------------------------------------------------- rounding to places

  predicate Below(raw: int, scale: int, r: int) {
    r * scale <= raw < r * scale + scale
  }

  predicate Above(raw: int, scale: int, r: int) {
    r * scale - scale < raw <= r * scale
  }

  /** An error of at most half a unit, and an even result if it is half a unit. */
  predicate ToEven(error: int, scale: int, r: int) {
    2 * Abs(error) <= scale && (2 * Abs(error) == scale ==> r % 2 == 0)
  }

  /** What each mode promises about the result `r` of rounding `raw / scale` to an integer. */
  predicate RoundsTo(mode: RoundingMode, raw: int, scale: int, r: int) {
    match mode
    case Floor => Below(raw, scale, r)
    case Ceil => Above(raw, scale, r)
    case Down => if raw >= 0 then Below(raw, scale, r) else Above(raw, scale, r)
    case Up => if raw >= 0 then Above(raw, scale, r) else Below(raw, scale, r)
    case HalfUp => Nearest(raw, scale, r)
    case HalfEven => ToEven(r * scale - raw, scale, r)
  }

  lemma BelowOne(raw: int, scale: int, r: int, s: int)
    requires scale > 0
    ensures Below(raw, scale, r) && Below(raw, scale, s) ==> r == s
    ensures Above(raw, scale, r) && Above(raw, scale, s) ==> r == s
  {
    assert (r - s) * scale == r * scale - s * scale;
    Ordered(r - s, 1, scale);
    Ordered(r - s, -1, scale);
  }

  lemma Distribute(r: int, s: int, d: int)
    ensures (r - s) * d == r * d - s * d
  {
  }

  lemma EvenOne(raw: int, scale: int, r: int, s: int)
    requires scale > 0 && ToEven(r * scale - raw, scale, r) && ToEven(s * scale - raw, scale, s)
    ensures r == s
  {
    hide ToEven;
    Distribute(r, s, scale);
    Ordered(r - s, 1, scale);
    Ordered(r - s, -1, scale);
    Ordered(r - s, 2, scale);
    Ordered(r - s, -2, scale);
    EvenGap(r, s, r * scale - raw, s * scale - raw, (r - s) * scale, scale);
  }

  /** The promise leaves one result. */
  lemma RoundsToOne(mode: RoundingMode, raw: int, scale: int, r: int, s: int)
    requires scale > 0 && RoundsTo(mode, raw, scale, r) && RoundsTo(mode, raw, scale, s)
    ensures r == s
  {
    hide Below, Above, Nearest, ToEven;
    BelowOne(raw, scale, r, s);
    if mode == HalfUp {
      NearestUnique(raw, scale, r, s);
    } else if mode == HalfEven {
      EvenOne(raw, scale, r, s);
    }
  }

  lemma EvenGap(r: int, s: int, x: int, y: int, gap: int, scale: int)
    requires scale > 0 && ToEven(x, scale, r) && ToEven(y, scale, s) && gap == x - y
    requires r - s >= 1 ==> gap >= scale
    requires r - s >= 2 ==> gap >= 2 * scale
    requires r - s <= -1 ==> gap <= -scale
    requires r - s <= -2 ==> gap <= -2 * scale
    ensures r == s
  {
  }

  lemma SignedProduct(negative: bool, m: int, scale: int)
    ensures Signed(negative, m) * scale == Signed(negative, m * scale)
  {
  }

  lemma ScaledOnEvenScale(raw: int, scale: nat, mode: RoundingMode)
    requires scale > 0 && scale % 2 == 0
    ensures RoundsTo(mode, raw, scale, Scaled(raw, scale, mode))
  {
    var a := Abs(raw);
    var whole, rem := Quot(a, scale), Rem(a, scale);
    var m := RoundMagnitude(mode, raw < 0, whole, rem, scale / 2);
    SignedProduct(raw < 0, m, scale);
    assert (whole + 1) * scale == whole * scale + scale;
    MagnitudeRounds(mode, raw < 0, a, scale, whole, rem, m, m * scale);
  }

  /** The same with products taken as given. */
  lemma MagnitudeRounds(
    mode: RoundingMode, negative: bool, a: nat, scale: nat, whole: nat, rem: nat, m: nat, product: int)
    requires scale > 0 && scale % 2 == 0 && rem < scale && (negative ==> a > 0)
    requires m == RoundMagnitude(mode, negative, whole, rem, scale / 2) && product == m * scale
    requires a - rem == if m == whole then product else product - scale
    ensures RoundsTo(mode, Signed(negative, a), scale, Signed(negative, m))
  {
    SignedProduct(negative, m, scale);
    var r, raw := Signed(negative, product), Signed(negative, a);
    assert Signed(negative, m) * scale == r;
  }

  lemma ScaledOnUnitScale(raw: int, mode: RoundingMode)
    ensures RoundsTo(mode, raw, 1, Scaled(raw, 1, mode))
       <==> mode != HalfUp && (mode == HalfEven ==> raw % 2 == 0)
  {
    var a := Abs(raw);
    assert Quot(a, 1) == a && Rem(a, 1) == 0;
  }

  lemma Pow10Even(n: nat)
    requires n > 0
    ensures Pow10(n) % 2 == 0
  {
    assert Pow10(n) == 2 * (5 * Pow10(n - 1));
  }

  /** Rounding to minor units keeps the promise of its mode up to 17 places. At 18 places there is
      nothing to round, but half of the scale is zero: `HALF_UP` moves every value, zero included,
      one unit away from zero, and `HALF_EVEN` moves the odd ones. */
  lemma MinorUnitsRound(d: Decimal, places: int, mode: RoundingMode)
    ensures ToMinorUnits(d, places, mode).Failure? <==> places > SCALE
    ensures places <= SCALE ==>
              (RoundsTo(mode, d.raw, ScaleFactor(places), ToMinorUnits(d, places, mode).value)
               <==> places < SCALE || (mode != HalfUp && (mode == HalfEven ==> d.raw % 2 == 0)))
  {
    if places < SCALE {
      Pow10Even(SCALE - places);
      ScaledOnEvenScale(d.raw, ScaleFactor(places), mode);
    } else if places == SCALE {
      ScaledOnUnitScale(d.raw, mode);
    }
  }

  /** The cents of nothing, at 18 places, are one. */
  lemma ZeroAtFullScale()
    ensures ToMinorUnits(Decimal(0), SCALE, HalfUp) == Success(1)
  {
    assert Quot(0, 1) == 0 && Rem(0, 1) == 0;
  }

  /** Rounding is off by at most half a unit of the last place kept. */
  lemma RoundError(d: Decimal, places: int, mode: RoundingMode)
    requires places < SCALE && (mode == HalfUp || mode == HalfEven)
    ensures Round(d, places, mode).Success?
    ensures 2 * Abs(Round(d, places, mode).value.raw - d.raw) <= ScaleFactor(places)
  {
    MinorUnitsRound(d, places, mode);
  }

  /** Rounding what is rounded already changes nothing, and neither does going through minor units. */
  lemma MinorUnitsReturn(minor: int, places: int, mode: RoundingMode)
    requires places < SCALE
    ensures ToMinorUnits(FromMinorUnits(minor, places).value, places, mode) == Success(minor)
  {
    var scale := ScaleFactor(places);
    var d := FromMinorUnits(minor, places).value;
    MinorUnitsRound(d, places, mode);
    assert RoundsTo(mode, d.raw, scale, minor);
    RoundsToOne(mode, d.raw, scale, minor, ToMinorUnits(d, places, mode).value);
  }
}
