/** Rounding to binary32, as float32(w) / float32(n) does it: to nearest, ties to
    even, with a 24-bit significand (section 4.3.1 of IEEE 754-2008). The exponent
    is unbounded here: a 64-bit weight over a 64-bit count neither overflows nor
    becomes subnormal. */
module Float32 {

  // ---------- multiplication by a positive factor ----------

  lemma ScaleStrict(a: real, b: real, u: real)
    requires a < b && u > 0.0
    ensures a * u < b * u
  {
    assert (b - a) * u > 0.0;
  }

  lemma ScaleWeak(a: real, b: real, u: real)
    requires a <= b && u > 0.0
    ensures a * u <= b * u
  {
    if a < b { ScaleStrict(a, b, u); }
  }

  lemma CancelStrict(a: real, b: real, u: real)
    requires u > 0.0 && a * u < b * u
    ensures a < b
  {
    if b <= a { ScaleWeak(b, a, u); }
  }

  lemma CancelWeak(a: real, b: real, u: real)
    requires u > 0.0 && a * u <= b * u
    ensures a <= b
  {
    if b < a { ScaleStrict(b, a, u); }
  }

  lemma Quotient(x: real, u: real)
    requires u > 0.0
    ensures (x / u) * u == x
  {
  }

  function Abs(x: real): real {
    if x < 0.0 then -x else x
  }

  lemma ScaledDistance(q: real, m: real, u: real)
    requires u > 0.0
    ensures Abs(q * u - m * u) == Abs(q - m) * u
  {
    assert q * u - m * u == (q - m) * u;
    ScaleWeak(if q >= m then m else q, if q >= m then q else m, u);
  }

  // ---------- rounding ----------

  const SIGNIFICAND_MIN: real := 8388608.0
  const SIGNIFICAND_END: real := 16777216.0
  /** 2^-24, half a unit in the last place relative to a significand of one. */
  const HALF_ULP: real := 0.000000059604644775390625

  lemma HalvingDecreases(x: real)
    requires 0.0 < x < SIGNIFICAND_MIN
    ensures 0 <= (SIGNIFICAND_END / (2.0 * x)).Floor < (SIGNIFICAND_END / x).Floor
  {
    var q := SIGNIFICAND_END / x;
    var h := SIGNIFICAND_END / (2.0 * x);
    Quotient(SIGNIFICAND_END, x);
    Quotient(SIGNIFICAND_END, 2.0 * x);
    assert (2.0 * h) * x == q * x;
    CancelWeak(2.0 * h, q, x);
    CancelWeak(q, 2.0 * h, x);
    CancelStrict(2.0, q, x);
  }

  /** The unit in the last place of x, for x below the end of the unit binade. */
  function UlpBelow(x: real): (u: real)
    requires 0.0 < x < SIGNIFICAND_END
    ensures u > 0.0 && SIGNIFICAND_MIN * u <= x < SIGNIFICAND_END * u
    decreases (SIGNIFICAND_END / x).Floor
  {
    if x >= SIGNIFICAND_MIN then 1.0
    else
      HalvingDecreases(x);
      UlpBelow(2.0 * x) / 2.0
  }

  /** The unit in the last place of any positive x. */
  function Ulp(x: real): (u: real)
    requires x > 0.0
    ensures u > 0.0 && SIGNIFICAND_MIN * u <= x < SIGNIFICAND_END * u
    decreases x.Floor
  {
    if x < SIGNIFICAND_END then UlpBelow(x) else 2.0 * Ulp(x / 2.0)
  }

  function RoundHalfEven(r: real): int {
    var f := r.Floor;
    var d := r - f as real;
    if d < 0.5 || (d == 0.5 && f % 2 == 0) then f else f + 1
  }

  /** The value of k units of size u. */
  function Units(k: int, u: real): real {
    k as real * u
  }

  function RoundPositive(x: real): real
    requires x > 0.0
  {
    Units(RoundHalfEven(x / Ulp(x)), Ulp(x))
  }

  function F32(x: real): real {
    if x == 0.0 then 0.0 else if x > 0.0 then RoundPositive(x) else -RoundPositive(-x)
  }

  lemma NearestInteger(q: real, k: int)
    ensures var m := RoundHalfEven(q);
            && Abs(q - m as real) <= Abs(q - k as real)
            && (k != m && Abs(q - m as real) == Abs(q - k as real) ==> m % 2 == 0)
  {
    var f := q.Floor;
    if k < f {
      assert k <= f - 1;
    } else if k > f + 1 {
      assert k >= f + 2;
    }
  }

  lemma UnitDistance(x: real, q: real, u: real, k: int)
    requires u > 0.0 && q * u == x
    ensures Abs(x - Units(k, u)) == Abs(q - k as real) * u
  {
    ScaledDistance(q, k as real, u);
  }

  lemma NearestUnits(x: real, q: real, u: real, k: int)
    requires u > 0.0 && q * u == x
    ensures var m := RoundHalfEven(q);
            && Abs(x - Units(m, u)) <= Abs(x - Units(k, u))
            && (k != m && Abs(x - Units(m, u)) == Abs(x - Units(k, u)) ==> m % 2 == 0)
  {
    hide *;
    var m := RoundHalfEven(q);
    UnitDistance(x, q, u, m);
    UnitDistance(x, q, u, k);
    NearestInteger(q, k);
    OrderScaled(Abs(q - m as real), Abs(q - k as real), u);
  }

  lemma OrderScaled(a: real, b: real, u: real)
    requires u > 0.0
    ensures a * u <= b * u <==> a <= b
    ensures a * u == b * u <==> a == b
  {
    if a < b { ScaleStrict(a, b, u); }
    if b < a { ScaleStrict(b, a, u); }
  }

  // ---------- the representable values ----------

  function Pow2(e: int): (r: real)
    ensures r > 0.0
    decreases if e < 0 then -e else e
  {
    if e == 0 then 1.0 else if e > 0 then 2.0 * Pow2(e - 1) else Pow2(e + 1) / 2.0
  }

  lemma Pow2Doubles(e: int)
    ensures Pow2(e + 1) == 2.0 * Pow2(e)
  {
  }

  lemma {:induction false} Pow2Grows(d: int, e: int)
    requires d <= e
    ensures Pow2(d) <= Pow2(e)
    decreases e - d
  {
    if d == e {
    } else {
      Pow2Grows(d, e - 1);
      Pow2Doubles(e - 1);
    }
  }

  lemma {:induction false} UlpBelowIsPow2(x: real) returns (e: int)
    requires 0.0 < x < SIGNIFICAND_END
    ensures UlpBelow(x) == Pow2(e)
    decreases (SIGNIFICAND_END / x).Floor
  {
    if x >= SIGNIFICAND_MIN {
      e := 0;
    } else {
      HalvingDecreases(x);
      e := UlpBelowIsPow2(2.0 * x);
      e := e - 1;
      Pow2Doubles(e);
    }
  }

  /** The unit in the last place is a power of two. */
  lemma {:induction false} UlpIsPow2(x: real) returns (e: int)
    requires x > 0.0
    ensures Ulp(x) == Pow2(e)
    decreases x.Floor
  {
    if x < SIGNIFICAND_END {
      e := UlpBelowIsPow2(x);
    } else {
      e := UlpIsPow2(x / 2.0);
      Pow2Doubles(e);
      e := e + 1;
    }
  }

  /** y has a 24-bit significand with its first bit set, and some exponent. */
  ghost predicate IsFloat(y: real) {
    exists m: int, e: int :: 0x80_0000 <= m < 0x100_0000 && y == Units(m, Pow2(e))
  }

  lemma SignificandRange(q: real)
    requires SIGNIFICAND_MIN <= q < SIGNIFICAND_END
    ensures 0x80_0000 <= RoundHalfEven(q) <= 0x100_0000
  {
  }

  /** x / Ulp(x) lies in the range of the significands. */
  lemma ScaledRange(x: real, u: real)
    requires u > 0.0 && SIGNIFICAND_MIN * u <= x < SIGNIFICAND_END * u
    ensures SIGNIFICAND_MIN <= x / u < SIGNIFICAND_END
  {
    Quotient(x, u);
    CancelWeak(SIGNIFICAND_MIN, x / u, u);
    CancelStrict(x / u, SIGNIFICAND_END, u);
  }

  lemma CarryOver(e: int)
    ensures Units(0x100_0000, Pow2(e)) == Units(0x80_0000, Pow2(e + 1))
  {
    Pow2Doubles(e);
  }

  /** The result of a rounding is representable. */
  lemma RoundedIsFloat(x: real)
    requires x > 0.0
    ensures IsFloat(F32(x))
  {
    var u := Ulp(x);
    var e := UlpIsPow2(x);
    ScaledRange(x, u);
    SignificandRange(x / u);
    var m := RoundHalfEven(x / u);
    assert F32(x) == Units(m, Pow2(e));
    hide Pow2, Units, RoundHalfEven, Ulp, F32;
    if m == 0x100_0000 {
      CarryOver(e);
    }
  }

  lemma {:induction false} WholeUnits(k: int, d: int, e: int) returns (m: int)
    requires d >= e
    ensures Units(k, Pow2(d)) == Units(m, Pow2(e))
    decreases d - e
  {
    if d == e {
      m := k;
    } else {
      Pow2Doubles(d - 1);
      assert Units(k, Pow2(d)) == Units(2 * k, Pow2(d - 1));
      m := WholeUnits(2 * k, d - 1, e);
    }
  }

  lemma HalfAndDouble(k: int, p: real, v: real)
    requires k <= 0x100_0000 && p > 0.0 && 2.0 * p <= v
    ensures Units(k, p) <= Units(0x80_0000, v)
  {
    ScaleWeak(k as real, SIGNIFICAND_END, p);
  }

  lemma BelowBinade(k: int, d: int, e: int)
    requires k < 0x100_0000 && d < e
    ensures Units(k, Pow2(d)) <= Units(0x80_0000, Pow2(e))
  {
    Pow2Grows(d + 1, e);
    Pow2Doubles(d);
    hide Pow2, Units;
    HalfAndDouble(k, Pow2(d), Pow2(e));
  }

  lemma FartherBelow(x: real, b: real, y: real)
    requires y <= b <= x
    ensures Abs(x - b) <= Abs(x - y)
  {
  }

  lemma NearestOfBinade(x: real, q: real, u: real, e: int, k: int, d: int)
    requires u > 0.0 && q * u == x && u == Pow2(e) && Units(0x80_0000, u) <= x
    requires k < 0x100_0000
    ensures Abs(x - Units(RoundHalfEven(q), u)) <= Abs(x - Units(k, Pow2(d)))
  {
    hide *;
    if d >= e {
      var m := WholeUnits(k, d, e);
      NearestUnits(x, q, u, m);
    } else {
      BelowBinade(k, d, e);
      NearestUnits(x, q, u, 0x80_0000);
      FartherBelow(x, Units(0x80_0000, u), Units(k, Pow2(d)));
    }
  }

  lemma FloatParts(y: real) returns (m: int, d: int)
    requires IsFloat(y)
    ensures 0x80_0000 <= m < 0x100_0000 && y == Units(m, Pow2(d))
  {
    m, d :| 0x80_0000 <= m < 0x100_0000 && y == Units(m, Pow2(d));
  }

  lemma RoundedParts(x: real) returns (q: real, u: real, e: int)
    requires x > 0.0
    ensures u > 0.0 && q * u == x && u == Pow2(e) && Units(0x80_0000, u) <= x
    ensures F32(x) == Units(RoundHalfEven(q), u) && 0x80_0000 <= RoundHalfEven(q) <= 0x100_0000
  {
    hide Pow2, RoundHalfEven, UlpBelow, Ulp;
    u := Ulp(x);
    q := x / u;
    ScaledRange(x, u);
    SignificandRange(q);
    e := UlpIsPow2(x);
    Quotient(x, u);
  }

  /** No representable value, of whatever exponent, is nearer than the rounded one. */
  lemma NoFloatIsNearer(x: real, y: real)
    requires x > 0.0 && IsFloat(y)
    ensures Abs(x - F32(x)) <= Abs(x - y)
  {
    hide *;
    var q, u, e := RoundedParts(x);
    var m, d := FloatParts(y);
    NearestOfBinade(x, q, u, e, m, d);
  }

  /** The rounding keeps a whole number of units that fits a significand: the nearest
      one, and the even one of two that are equally near. */
  lemma RoundsToNearestEven(x: real)
    requires x > 0.0
    ensures exists m: int :: F32(x) == Units(m, Ulp(x)) && 0x80_0000 <= m <= 0x100_0000 && forall k: int ::
                && Abs(x - F32(x)) <= Abs(x - Units(k, Ulp(x)))
                && (k != m && Abs(x - F32(x)) == Abs(x - Units(k, Ulp(x))) ==> m % 2 == 0)
  {
    var u := Ulp(x);
    var q := x / u;
    var m := RoundHalfEven(q);
    Quotient(x, u);
    ScaledRange(x, u);
    SignificandRange(q);
    assert F32(x) == Units(m, u);
    hide Ulp, UlpBelow, F32, Units, RoundHalfEven, Abs;
    forall k: int
      ensures && Abs(x - F32(x)) <= Abs(x - Units(k, u))
              && (k != m && Abs(x - F32(x)) == Abs(x - Units(k, u)) ==> m % 2 == 0)
    {
      NearestUnits(x, q, u, k);
    }
  }

  /** The significand of y is even. */
  ghost predicate EvenFloat(y: real) {
    exists m: int, e: int :: 0x80_0000 <= m < 0x100_0000 && m % 2 == 0 && y == Units(m, Pow2(e))
  }

  lemma EvenSignificand(m: int, e: int)
    requires 0x80_0000 <= m <= 0x100_0000 && m % 2 == 0
    ensures EvenFloat(Units(m, Pow2(e)))
  {
    hide Units, Pow2;
    if m == 0x100_0000 {
      CarryOver(e);
    }
  }

  lemma NotBelow(x: real, b: real, y: real, r: real)
    requires y <= b <= x && Abs(x - r) <= Abs(x - b) && Abs(x - y) == Abs(x - r)
    ensures y == b
  {
  }

  /** Of two representable values that are equally near, of whatever exponents, the one
      with the even significand is taken. */
  lemma TiesGoToEven(x: real, y: real)
    requires x > 0.0 && IsFloat(y) && y != F32(x) && Abs(x - y) == Abs(x - F32(x))
    ensures EvenFloat(F32(x))
  {
    hide *;
    var q, u, e := RoundedParts(x);
    var k, d := FloatParts(y);
    var m := RoundHalfEven(q);
    if d >= e {
      k := WholeUnits(k, d, e);
    } else {
      BelowBinade(k, d, e);
      NearestUnits(x, q, u, 0x80_0000);
      NotBelow(x, Units(0x80_0000, u), y, Units(m, u));
      k := 0x80_0000;
    }
    NearestUnits(x, q, u, k);
    EvenSignificand(m, e);
  }

  lemma RoundsWithinHalf(q: real)
    ensures Abs(q - RoundHalfEven(q) as real) <= 0.5
  {
  }

  lemma HalfUnitError(x: real, q: real, u: real)
    requires u > 0.0 && q * u == x
    ensures Abs(x - Units(RoundHalfEven(q), u)) <= 0.5 * u
  {
    hide *;
    var m := RoundHalfEven(q);
    UnitDistance(x, q, u, m);
    RoundsWithinHalf(q);
    ScaleWeak(Abs(q - m as real), 0.5, u);
  }

  /** The relative error of one rounding is at most 2^-24. */
  lemma RelativeError(x: real)
    requires x > 0.0
    ensures x - x * HALF_ULP <= F32(x) <= x + x * HALF_ULP
    ensures F32(x) > 0.0
  {
    hide Units, RoundHalfEven, Ulp;
    var u := Ulp(x);
    Quotient(x, u);
    HalfUnitError(x, x / u, u);
  }

  // ---------- small integers are exact ----------

  lemma WholeQuotient(x: real, k: int, u: real)
    requires u > 0.0 && x == Units(k, u)
    ensures x / u == k as real && RoundHalfEven(x / u) == k
  {
    Quotient(x, u);
    CancelWeak(x / u, k as real, u);
    CancelWeak(k as real, x / u, u);
  }

  lemma HalfUnits(x: real, k: int, u: real)
    requires 2.0 * x == Units(k, u)
    ensures x == Units(k, u / 2.0)
  {
  }

  lemma {:induction false} UlpDividesInteger(x: real, n: int) returns (k: int)
    requires x == n as real && 0.0 < x < SIGNIFICAND_END
    ensures x == Units(k, UlpBelow(x))
    decreases (SIGNIFICAND_END / x).Floor
  {
    if x >= SIGNIFICAND_MIN {
      k := n;
      assert UlpBelow(x) == 1.0;
    } else {
      HalvingDecreases(x);
      k := UlpDividesInteger(2.0 * x, 2 * n);
      var u := UlpBelow(2.0 * x);
      HalfUnits(x, k, u);
    }
  }

  /** Integers of at most 24 bits are represented exactly. */
  lemma SmallIntegersExact(n: int)
    requires 0 < n <= 0x100_0000
    ensures F32(n as real) == n as real
  {
    var x := n as real;
    if n < 0x100_0000 {
      var k := UlpDividesInteger(x, n);
      assert Ulp(x) == UlpBelow(x);
      WholeQuotient(x, k, Ulp(x));
    } else {
      assert UlpBelow(SIGNIFICAND_MIN) == 1.0;
      assert x / 2.0 == SIGNIFICAND_MIN && Ulp(x / 2.0) == 1.0;
      assert Ulp(x) == 2.0;
      assert x == Units(8388608, 2.0);
      WholeQuotient(x, 8388608, 2.0);
    }
  }

  // ---------- the share of one address ----------

  /** float32(w) / float32(n); no share is ever computed for n == 0. */
  function FloatShare(w: int, n: nat): real {
    if F32(n as real) == 0.0 then 0.0 else F32(F32(w as real) / F32(n as real))
  }

  /** No representable value is nearer to x than r, and if another one is as near, r is
      the one with the even significand. */
  ghost predicate Nearest(x: real, r: real) {
    && IsFloat(r)
    && (forall y :: IsFloat(y) ==> Abs(x - r) <= Abs(x - y))
    && (forall y :: IsFloat(y) && y != r && Abs(x - y) == Abs(x - r) ==> EvenFloat(r))
  }

  lemma RoundedIsNearest(x: real)
    requires x > 0.0
    ensures Nearest(x, F32(x))
  {
    hide F32, IsFloat, EvenFloat, Abs;
    RoundedIsFloat(x);
    forall y | IsFloat(y) ensures Abs(x - F32(x)) <= Abs(x - y) {
      NoFloatIsNearer(x, y);
    }
    forall y | IsFloat(y) && y != F32(x) && Abs(x - y) == Abs(x - F32(x)) ensures EvenFloat(F32(x)) {
      TiesGoToEven(x, y);
    }
  }

  /** The share of a positive weight is the representable value nearest to the quotient
      of those nearest to the weight and to the count. */
  lemma ShareIsNearest(w: int, n: nat) returns (fw: real, fn: real)
    requires w > 0 && n >= 1
    ensures Nearest(w as real, fw) && Nearest(n as real, fn) && fw > 0.0 && fn > 0.0 && Nearest(fw / fn, FloatShare(w, n))
    ensures w <= 0x100_0000 ==> fw == w as real
    ensures n <= 0x100_0000 ==> fn == n as real
  {
    hide F32, Nearest;
    fw, fn := F32(w as real), F32(n as real);
    RoundedIsNearest(w as real);
    RoundedIsNearest(n as real);
    RelativeError(w as real);
    RelativeError(n as real);
    PositiveQuotient(fw, fn);
    RoundedIsNearest(fw / fn);
    if w <= 0x100_0000 { SmallIntegersExact(w); }
    if n <= 0x100_0000 { SmallIntegersExact(n); }
  }

  /** For weights and counts of at most 24 bits it is the one nearest to the exact share. */
  lemma SmallShareIsNearest(w: int, n: nat)
    requires 0 < w <= 0x100_0000 && 1 <= n <= 0x100_0000
    ensures Nearest(w as real / n as real, FloatShare(w, n))
  {
    hide FloatShare, Nearest;
    var fw, fn := ShareIsNearest(w, n);
  }

  /** A weight of zero gives shares of zero, and a negative one those of its absolute
      value with the sign changed. */
  lemma ShareKeepsSign(w: int, n: nat)
    requires n >= 1
    ensures FloatShare(0, n) == 0.0
    ensures FloatShare(-w, n) == -FloatShare(w, n)
  {
    RelativeError(n as real);
    RoundingIsOdd(w as real);
    var fw, fn := F32(w as real), F32(n as real);
    hide RoundPositive;
    NegatedQuotient(fw, fn);
    RoundingIsOdd(fw / fn);
    assert F32(0.0) == 0.0 && 0.0 / fn == 0.0;
  }

  lemma RoundingIsOdd(x: real)
    ensures F32(-x) == -F32(x)
  {
    hide RoundPositive;
    assert -(-x) == x;
  }

  lemma NegatedQuotient(a: real, b: real)
    requires b > 0.0
    ensures -a / b == -(a / b)
  {
    Quotient(a, b);
    Quotient(-a, b);
    assert -(a / b) * b == -a;
    CancelWeak(-a / b, -(a / b), b);
    CancelWeak(-(a / b), -a / b, b);
  }

  lemma PositiveQuotient(a: real, b: real)
    requires a > 0.0 && b > 0.0
    ensures a / b > 0.0
  {
    Quotient(a, b);
    CancelStrict(0.0, a / b, b);
  }

  /** The share is a rounded quotient of two rounded numbers. */
  lemma ShareFacts(w: int, n: nat) returns (q: real, fw: real, fn: real)
    requires w > 0 && n >= 1
    ensures q > 0.0 && q * fn == fw
    ensures w as real - w as real * HALF_ULP <= fw <= w as real + w as real * HALF_ULP
    ensures n as real - n as real * HALF_ULP <= fn <= n as real + n as real * HALF_ULP
    ensures q - q * HALF_ULP <= FloatShare(w, n) <= q + q * HALF_ULP
    ensures w <= 0x100_0000 ==> fw == w as real
    ensures n <= 0x100_0000 ==> fn == n as real
  {
    hide F32;
    fw, fn := F32(w as real), F32(n as real);
    RelativeError(w as real);
    RelativeError(n as real);
    q := fw / fn;
    Quotient(fw, fn);
    PositiveQuotient(fw, fn);
    RelativeError(q);
    if w <= 0x100_0000 { SmallIntegersExact(w); }
    if n <= 0x100_0000 { SmallIntegersExact(n); }
  }

  /** For weights and counts of at most 24 bits, n shares differ from the route
      weight by at most w * 2^-24. */
  lemma ShareErrorSmall(w: int, n: nat)
    requires 0 < w <= 0x100_0000 && 1 <= n <= 0x100_0000
    ensures Abs(FloatShare(w, n) * n as real - w as real) <= w as real * HALF_ULP
  {
    hide FloatShare;
    var q, fw, fn := ShareFacts(w, n);
    ShareOfQuotient(FloatShare(w, n), q, n as real, w as real);
  }

  lemma ShareOfQuotient(r: real, q: real, n: real, w: real)
    requires n > 0.0 && q * n == w
    requires q - q * HALF_ULP <= r <= q + q * HALF_ULP
    ensures w - w * HALF_ULP <= r * n <= w + w * HALF_ULP
  {
    ProductBounds(r, q, n, r * n, w);
  }

  /** For every positive weight and count, the three roundings together keep the
      error below w * 4 * 2^-24. */
  lemma ShareErrorAny(w: int, n: nat)
    requires w > 0 && n >= 1
    ensures Abs(FloatShare(w, n) * n as real - w as real) <= w as real * (4.0 * HALF_ULP)
  {
    hide FloatShare;
    var q, fw, fn := ShareFacts(w, n);
    QuotientBounds(q, fw, fn, w as real, n as real);
    ShareBounds(FloatShare(w, n), q, w as real, n as real);
  }

  /** A quotient of two rounded values, times the exact divisor. */
  lemma QuotientBounds(q: real, fw: real, fn: real, w: real, n: real)
    requires q > 0.0 && w > 0.0 && n > 0.0 && q * fn == fw
    requires w - w * HALF_ULP <= fw <= w + w * HALF_ULP
    requires n - n * HALF_ULP <= fn <= n + n * HALF_ULP
    ensures w - w * (2.0 * HALF_ULP) <= q * n <= w + w * (2.5 * HALF_ULP)
  {
    var p := q * n;
    DivisorBounds(q, fn, n, p, fw);
    LinearBounds(p, fw, w);
  }

  lemma DivisorBounds(q: real, fn: real, n: real, p: real, fw: real)
    requires q > 0.0 && p == q * n && fw == q * fn
    requires n - n * HALF_ULP <= fn <= n + n * HALF_ULP
    ensures p - p * HALF_ULP <= fw <= p + p * HALF_ULP
  {
    ScaleWeak(n - n * HALF_ULP, fn, q);
    ScaleWeak(fn, n + n * HALF_ULP, q);
    assert (n - n * HALF_ULP) * q == p - p * HALF_ULP;
    assert (n + n * HALF_ULP) * q == p + p * HALF_ULP;
  }

  lemma LinearBounds(p: real, fw: real, w: real)
    requires w > 0.0
    requires p - p * HALF_ULP <= fw <= p + p * HALF_ULP
    requires w - w * HALF_ULP <= fw <= w + w * HALF_ULP
    ensures w - w * (2.0 * HALF_ULP) <= p <= w + w * (2.5 * HALF_ULP)
  {
  }

  lemma ShareBounds(r: real, q: real, w: real, n: real)
    requires n > 0.0 && w > 0.0
    requires q - q * HALF_ULP <= r <= q + q * HALF_ULP
    requires w - w * (2.0 * HALF_ULP) <= q * n <= w + w * (2.5 * HALF_ULP)
    ensures Abs(r * n - w) <= w * (4.0 * HALF_ULP)
  {
    var p, s := r * n, q * n;
    ProductBounds(r, q, n, p, s);
    FinalBounds(p, s, w);
  }

  /** The bounds on r, times n. */
  lemma ProductBounds(r: real, q: real, n: real, p: real, s: real)
    requires n > 0.0 && q - q * HALF_ULP <= r <= q + q * HALF_ULP
    requires p == r * n && s == q * n
    ensures s - s * HALF_ULP <= p <= s + s * HALF_ULP
  {
    ScaleWeak(r, q + q * HALF_ULP, n);
    ScaleWeak(q - q * HALF_ULP, r, n);
    assert (q + q * HALF_ULP) * n == s + s * HALF_ULP;
    assert (q - q * HALF_ULP) * n == s - s * HALF_ULP;
  }

  lemma FinalBounds(p: real, s: real, w: real)
    requires w > 0.0
    requires s - s * HALF_ULP <= p <= s + s * HALF_ULP
    requires w - w * (2.0 * HALF_ULP) <= s <= w + w * (2.5 * HALF_ULP)
    ensures Abs(p - w) <= w * (4.0 * HALF_ULP)
  {
  }
}
