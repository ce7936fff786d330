/**
 The global load average: calc_load, its n-fold catch-up calc_load_n, and fixed_power_int.  unsigned long has 32 bits;
 errors are stated over the reals against the exact exponential average.
 */
module LoadAverage {
  import opened FixedPoint

  const FSHIFT := 11
  const FIXED_1 := 2048

  /** a * b in unsigned long. */
  function Mul(a: nat, b: nat): (r: nat)
    ensures a * b < WORD ==> r == a * b
  {
    a * b % WORD
  }

  /** a + b in unsigned long. */
  function Add(a: nat, b: nat): (r: nat)
    ensures a + b < WORD ==> r == a + b
  {
    (a + b) % WORD
  }

  /** The rounded fixed-point product: multiply, add half a unit, shift right. */
  function MulRound(a: nat, b: nat, f: nat): nat
    requires f >= 1
  {
    ShiftRight(Add(Mul(a, b), Pow2(f - 1)), f)
  }

  lemma {:induction false} ShiftRightIs(x: nat, f: nat)
    ensures var q := ShiftRight(x, f); q * Pow2(f) <= x < q * Pow2(f) + Pow2(f)
  {
    if f > 0 {
      ShiftRightIs(x / 2, f - 1);
      TwiceProduct(ShiftRight(x, f), Pow2(f - 1));
    }
  }

  lemma TwiceProduct(q: nat, d: nat)
    ensures q * (2 * d) == 2 * (q * d)
  {
  }

  // ---------------------------------------------------------------- fixed_power_int

  /** The loop of fixed_power_int from an intermediate state. */
  function PowerLoop(result: nat, x: nat, f: nat, n: nat): nat
    requires f >= 1 && n >= 1
    decreases n
  {
    var r := if n % 2 == 1 then MulRound(result, x, f) else result;
    if n / 2 == 0 then r else PowerLoop(r, MulRound(x, x, f), f, n / 2)
  }

  function FixedPower(x: nat, f: nat, n: nat): nat
    requires f >= 1
  {
    if n == 0 then Pow2(f) else PowerLoop(Pow2(f), x, f, n)
  }

  method FixedPowerInt(x0: nat, fracBits: nat, n0: nat) returns (result: nat)
    requires fracBits >= 1
    ensures result == FixedPower(x0, fracBits, n0)
  {
    var x, n := x0, n0;
    result := Pow2(fracBits);
    if n != 0 {
      while true
        invariant n >= 1
        invariant PowerLoop(result, x, fracBits, n) == FixedPower(x0, fracBits, n0)
        decreases n
      {
        if n % 2 == 1 {
          result := MulRound(result, x, fracBits);
        }
        n := n / 2;
        if n == 0 {
          break;
        }
        x := MulRound(x, x, fracBits);
      }
    }
  }

  predicate Near(v: nat, exact: real, error: real) {
    -error <= v as real - exact <= error
  }

  lemma Pow2Bound(f: nat)
    requires 1 <= f <= 15
    ensures Pow2(f) == 2 * Pow2(f - 1) && Pow2(f) <= 0x8000
  {
    Pow2Grows(f, 15);
    assert Pow2(15) == 0x8000 by {
      assert Pow2(5) == 32;
      assert Pow2(10) == 1024;
    }
  }

  lemma {:induction false} Pow2Grows(m: nat, n: nat)
    requires m <= n
    ensures Pow2(m) <= Pow2(n)
  {
    if m < n { Pow2Grows(m, n - 1); }
  }

  lemma MulMono(a: nat, b: nat, c: nat)
    requires a <= b
    ensures 0 <= a * c <= b * c
  {
  }

  lemma CancelFactor(a: nat, b: nat, d: nat)
    requires a * d < b * d
    ensures a < b
  {
    if a >= b { MulMono(b, a, d); }
  }

  lemma Next(a: nat, b: nat)
    ensures (a + 1) * b == a * b + b
  {
  }

  /** r is a * b / F to the nearest whole number. */
  predicate Rounded(a: nat, b: nat, r: nat, F: nat) {
    2 * (a * b) - F <= 2 * (r * F) <= 2 * (a * b) + F
  }

  /** Below 16 fraction bits nothing wraps, the product stays a fraction and is off by at most one half. */
  lemma MulRoundExact(a: nat, b: nat, f: nat)
    requires 1 <= f <= 15 && a <= Pow2(f) && b <= Pow2(f)
    ensures MulRound(a, b, f) <= Pow2(f)
    ensures Rounded(a, b, MulRound(a, b, f), Pow2(f))
  {
    Pow2Bound(f);
    SquareBound(a, b, Pow2(f));
    RoundedShift(a * b, f);
  }

  lemma RoundedShift(p: nat, f: nat)
    requires f >= 1 && p <= Pow2(f) * Pow2(f)
    ensures var r := ShiftRight(p + Pow2(f - 1), f);
            r <= Pow2(f) && 2 * p - Pow2(f) <= 2 * (r * Pow2(f)) <= 2 * p + Pow2(f)
  {
    var F := Pow2(f);
    ShiftRightIs(p + Pow2(f - 1), f);
    Next(F, F);
    CancelFactor(ShiftRight(p + Pow2(f - 1), f), F + 1, F);
  }

  lemma SquareBound(a: nat, b: nat, F: nat)
    requires a <= F && b <= F <= 0x8000
    ensures 0 <= a * b <= F * F <= 0x4000_0000
  {
    MulMono(a, F, b);
    MulMono(b, F, F);
    MulMono(F, 0x8000, F);
  }

  lemma RealProduct(a: int, b: int)
    ensures (a * b) as real == a as real * b as real
  {
  }

  lemma DifferenceTimes(r: real, E: real, F: real)
    ensures (r - E) * F == r * F - E * F
  {
  }

  lemma Scaled(d: real, e: real, q: real)
    requires -e <= d <= e && 0.0 <= q <= 1.0
    ensures -e <= d * q <= e
  {
    if d >= 0.0 {
      Shrink(d, q);
      assert d * q == q * d;
    } else {
      var m := -d;
      Shrink(m, q);
      Negated(d, m, q);
      assert q * m <= m;
      assert d * q == -(q * m);
      assert d * q >= -m;
    }
  }

  lemma Negated(d: real, m: real, q: real)
    requires m == -d
    ensures d * q == -(q * m)
  {
  }

  lemma RealMono(a: real, b: real, c: real)
    requires a <= b && 0.0 <= c
    ensures a * c <= b * c
  {
  }

  lemma Cancel(d: real, e: real, F: real)
    requires F > 0.0 && -(e * F) <= d * F <= e * F
    ensures -e <= d <= e
  {
    if d > e { RealStrict(e, d, F); }
    if d < -e { RealStrict(d, -e, F); }
  }

  lemma RealStrict(a: real, b: real, c: real)
    requires a < b && 0.0 < c
    ensures a * c < b * c
  {
  }

  // Powers are compared after division by 2^f, so that the exact value is a power of a number in [0, 1].

  /** v / 2^f. */
  function Unit(v: nat, f: nat): real {
    if f == 0 then v as real else Unit(v, f - 1) / 2.0
  }

  predicate IsUnit(v: nat, F: nat, u: real) {
    u * F as real == v as real
  }

  predicate IsHalfUnit(F: nat, h: real) {
    h * F as real == 0.5
  }

  predicate Within(x: real, y: real, e: real) {
    -e <= x - y <= e
  }

  lemma {:induction false} UnitIs(v: nat, f: nat)
    ensures IsUnit(v, Pow2(f), Unit(v, f))
  {
    if f > 0 {
      UnitIs(v, f - 1);
      HalfTwice(Unit(v, f - 1), Pow2(f - 1) as real);
    }
  }

  lemma HalfTwice(u: real, F: real)
    ensures (u / 2.0) * (2.0 * F) == u * F
  {
  }

  lemma {:induction false} UnitOrder(v: nat, f: nat)
    requires v <= Pow2(f)
    ensures 0.0 <= Unit(v, f) <= 1.0
  {
    UnitIs(v, f);
    RealOrder(Unit(v, f), Pow2(f) as real, v as real);
  }

  lemma RealOrder(u: real, F: real, v: real)
    requires u * F == v && 0.0 <= v <= F && F > 0.0
    ensures 0.0 <= u <= 1.0
  {
    if u > 1.0 { RealStrict(1.0, u, F); }
    if u < 0.0 { RealStrict(u, 0.0, F); }
  }

  function HalfUnit(f: nat): real {
    Unit(1, f) / 2.0
  }

  lemma HalfUnitIs(f: nat)
    ensures IsHalfUnit(Pow2(f), HalfUnit(f))
  {
    UnitIs(1, f);
    HalfTwice(Unit(1, f), Pow2(f) as real / 2.0);
  }

  lemma UnitWhole(f: nat)
    ensures Unit(Pow2(f), f) == 1.0
  {
    UnitIs(Pow2(f), f);
    if Unit(Pow2(f), f) > 1.0 {
      RealStrict(1.0, Unit(Pow2(f), f), Pow2(f) as real);
    } else if Unit(Pow2(f), f) < 1.0 {
      RealStrict(Unit(Pow2(f), f), 1.0, Pow2(f) as real);
    }
  }

  /** A whole unit is the power 0 and x itself the power 1. */
  lemma FirstPowers(x: nat, f: nat)
    requires x <= Pow2(f)
    ensures Approximates(Pow2(f), Unit(x, f), f, 0) && Approximates(x, Unit(x, f), f, 1)
  {
    UnitWhole(f);
    assert Pow(Unit(x, f), 1) == Unit(x, f) * Pow(Unit(x, f), 0);
  }

  /** The error of an m-th power: h for each of the m - 1 products in it. */
  function PowerError(h: real, m: nat): real {
    if m <= 1 then 0.0 else PowerError(h, m - 1) + h
  }

  lemma {:induction false} PowerErrorsAdd(h: real, m: nat, k: nat)
    requires m >= 1 && k >= 1
    ensures PowerError(h, m) + PowerError(h, k) + h == PowerError(h, m + k)
  {
    if k > 1 { PowerErrorsAdd(h, m, k - 1); }
  }

  lemma {:induction false} PowerErrorIs(h: real, m: nat)
    requires m >= 1
    ensures PowerError(h, m) == (m - 1) as real * h
  {
    if m == 1 {
      assert 0.0 * h == 0.0;
    } else {
      PowerErrorIs(h, m - 1);
      AddFactor((m - 2) as real, h);
      assert (m - 1) as real == (m - 2) as real + 1.0;
    }
  }

  lemma AddFactor(a: real, h: real)
    ensures (a + 1.0) * h == a * h + h
  {
  }

  /** v is a fixed-point approximation of the m-th power of q with f fraction bits. */
  ghost predicate Approximates(v: nat, q: real, f: nat, m: nat) {
    v <= Pow2(f) && (m == 0 ==> v == Pow2(f))
    && Within(Unit(v, f), Pow(q, m), PowerError(HalfUnit(f), m))
  }

  /** w is u * v up to h. */
  predicate IsProduct(u: real, v: real, w: real, h: real) {
    Within(w, u * v, h)
  }

  lemma MulRoundUnit(a: nat, b: nat, f: nat)
    requires 1 <= f <= 15 && a <= Pow2(f) && b <= Pow2(f)
    ensures MulRound(a, b, f) <= Pow2(f) && (a == Pow2(f) ==> MulRound(a, b, f) == b)
    ensures IsProduct(Unit(a, f), Unit(b, f), Unit(MulRound(a, b, f), f), HalfUnit(f))
  {
    hide *;
    MulRoundExact(a, b, f);
    var F, r := Pow2(f), MulRound(a, b, f);
    UnitIs(a, f);
    UnitIs(b, f);
    UnitIs(r, f);
    HalfUnitIs(f);
    DividedTwice(a, b, r, F, Unit(a, f), Unit(b, f), Unit(r, f), HalfUnit(f));
    if a == Pow2(f) {
      Whole(r, b, F);
    }
  }

  lemma Whole(r: nat, b: nat, F: nat)
    requires F > 0 && Rounded(F, b, r, F)
    ensures r == b
  {
    CancelFactor(r, b + 1, F);
    CancelFactor(b, r + 1, F);
  }

  lemma DividedTwice(a: nat, b: nat, r: nat, F: nat, u: real, v: real, w: real, h: real)
    requires F > 0 && IsUnit(a, F, u) && IsUnit(b, F, v) && IsUnit(r, F, w) && IsHalfUnit(F, h)
    requires Rounded(a, b, r, F)
    ensures IsProduct(u, v, w, h)
  {
    RealProduct(a, b);
    RealProduct(r, F);
    Normalise(a as real * b as real, r as real * F as real, F as real, u, v, w, h);
  }

  lemma Normalise(ab: real, rF: real, F: real, u: real, v: real, w: real, h: real)
    requires F > 0.0 && ab == (u * F) * (v * F) && rF == (w * F) * F && h * F == 0.5
    requires 2.0 * ab - F <= 2.0 * rF <= 2.0 * ab + F
    ensures IsProduct(u, v, w, h)
  {
    assert F * F > 0.0;
    assert (w - u * v) * (F * F) == rF - ab by { Rearrange(u, v, w, F); }
    assert h * (F * F) == 0.5 * F by { assert h * (F * F) == (h * F) * F; }
    Cancel(w - u * v, h, F * F);
  }

  lemma Rearrange(u: real, v: real, w: real, F: real)
    ensures (w - u * v) * (F * F) == (w * F) * F - (u * F) * (v * F)
  {
  }

  /** Multiplying two approximations adds their errors and the rounding of the product. */
  lemma NearProduct(u: real, v: real, w: real, A: real, B: real, AB: real, h: real, ea: real, eb: real)
    requires 0.0 <= v <= 1.0 && 0.0 <= A <= 1.0 && AB == A * B
    requires IsProduct(u, v, w, h) && Within(u, A, ea) && Within(v, B, eb)
    ensures Within(w, AB, ea + eb + h)
  {
    Scaled(u - A, ea, v);
    Scaled(v - B, eb, A);
    Differences(u, A, v, B);
  }

  lemma Differences(a: real, A: real, b: real, B: real)
    ensures (a - A) * b + (b - B) * A == a * b - A * B
  {
  }

  lemma ProductApproximates(a: nat, b: nat, q: real, f: nat, m: nat, k: nat)
    requires 1 <= f <= 15 && 0.0 <= q <= 1.0 && k >= 1
    requires Approximates(a, q, f, m) && Approximates(b, q, f, k)
    ensures Approximates(MulRound(a, b, f), q, f, m + k)
  {
    hide Unit, HalfUnit, PowerError, Pow, MulRound, IsProduct;
    MulRoundUnit(a, b, f);
    if m > 0 {
      UnitOrder(b, f);
      PowersNear(Unit(a, f), Unit(b, f), Unit(MulRound(a, b, f), f), q, HalfUnit(f), m, k);
    }
  }

  lemma PowersNear(u: real, v: real, w: real, q: real, h: real, m: nat, k: nat)
    requires 0.0 <= v <= 1.0 && 0.0 <= q <= 1.0 && m >= 1 && k >= 1
    requires IsProduct(u, v, w, h)
    requires Within(u, Pow(q, m), PowerError(h, m)) && Within(v, Pow(q, k), PowerError(h, k))
    ensures Within(w, Pow(q, m + k), PowerError(h, m + k))
  {
    hide PowerError, Pow, IsProduct;
    PowAdd(q, m, k);
    PowInUnit(q, m);
    NearProduct(u, v, w, Pow(q, m), Pow(q, k), Pow(q, m + k), h, PowerError(h, m), PowerError(h, k));
    PowerErrorsAdd(h, m, k);
  }

  lemma {:induction false} PowerLoopApproximates(result: nat, x: nat, q: real, f: nat, m: nat, k: nat, n: nat)
    requires 1 <= f <= 15 && 0.0 <= q <= 1.0 && k >= 1 && n >= 1
    requires Approximates(result, q, f, m) && Approximates(x, q, f, k)
    ensures Approximates(PowerLoop(result, x, f, n), q, f, m + k * n)
    decreases n
  {
    var m' := if n % 2 == 1 then m + k else m;
    if n % 2 == 1 {
      ProductApproximates(result, x, q, f, m, k);
    }
    var r := if n % 2 == 1 then MulRound(result, x, f) else result;
    if n / 2 == 0 {
      assert n == 1;
    } else {
      ProductApproximates(x, x, q, f, k, k);
      PowerLoopApproximates(r, MulRound(x, x, f), q, f, m', k + k, n / 2);
      assert m' + (k + k) * (n / 2) == m + k * n by { HalfSteps(m, k, n); }
    }
  }

  lemma HalfSteps(m: nat, k: nat, n: nat)
    ensures (if n % 2 == 1 then m + k else m) + (k + k) * (n / 2) == m + k * n
  {
    assert n == 2 * (n / 2) + n % 2;
    assert k * n == k * (2 * (n / 2)) + k * (n % 2);
  }

  /** fixed_power_int stays a fraction and is off by at most half a unit for each of the n - 1 products. */
  lemma FixedPowerBound(x: nat, f: nat, n: nat)
    requires 1 <= f <= 15 && x <= Pow2(f)
    ensures FixedPower(x, f, n) <= Pow2(f)
    ensures Within(Unit(FixedPower(x, f, n), f), Pow(Unit(x, f), n), PowerError(HalfUnit(f), n))
  {
    UnitOrder(x, f);
    FirstPowers(x, f);
    if n > 0 {
      PowerLoopApproximates(Pow2(f), x, Unit(x, f), f, 0, 1, n);
    }
  }

  function Times(p: real, F: nat): real {
    p * F as real
  }

  /** |fixed_power_int(x, f, n) - 2^f * (x / 2^f)^n| <= n / 2 */
  predicate PowerOk(x: nat, f: nat, n: nat)
    requires f >= 1
  {
    Near(FixedPower(x, f, n), Times(Pow(Unit(x, f), n), Pow2(f)), n as real / 2.0)
  }

  /** The same bound in units of the result. */
  lemma FixedPowerScaled(x: nat, f: nat, n: nat)
    requires 1 <= f <= 15 && x <= Pow2(f)
    ensures PowerOk(x, f, n)
  {
    hide Unit, HalfUnit, Pow, Pow2, FixedPower, PowerError, IsUnit, IsHalfUnit, Within, Near, Times;
    var r, h := FixedPower(x, f, n), HalfUnit(f);
    FixedPowerBound(x, f, n);
    UnitIs(r, f);
    HalfUnitIs(f);
    if n > 0 {
      PowerErrorIs(h, n);
      Multiply(r, Pow2(f), Unit(r, f), Pow(Unit(x, f), n), n, h, PowerError(h, n));
    } else {
      FixedPowerZero(x, f);
    }
  }

  lemma FixedPowerZero(x: nat, f: nat)
    requires f >= 1
    ensures Near(FixedPower(x, f, 0), Times(Pow(Unit(x, f), 0), Pow2(f)), 0.0)
  {
  }

  lemma Multiply(r: nat, F: nat, u: real, p: real, n: nat, h: real, kh: real)
    requires F > 0 && n > 0 && IsUnit(r, F, u) && IsHalfUnit(F, h) && Within(u, p, kh) && kh == (n - 1) as real * h
    ensures Near(r, Times(p, F), n as real / 2.0)
  {
    var k := (n - 1) as real;
    var gap := u - p;
    assert -kh <= gap <= kh;
    RealMono(gap, kh, F as real);
    RealMono(-kh, gap, F as real);
    DifferenceTimes(u, p, F as real);
    ErrorTimes(k, h, kh, F as real);
    assert -(kh * F as real) == (-kh) * F as real;
  }

  lemma ErrorTimes(k: real, h: real, kh: real, F: real)
    requires kh == k * h && h * F == 0.5
    ensures kh * F == k / 2.0
  {
    assert (k * h) * F == k * (h * F);
  }

  lemma {:induction false} Pow2Add(m: nat, n: nat)
    ensures Pow2(m + n) == Pow2(m) * Pow2(n)
    decreases n
  {
    if n > 0 {
      Pow2Add(m, n - 1);
      assert Pow2(m + n) == 2 * Pow2(m + n - 1) && Pow2(n) == 2 * Pow2(n - 1);
      hide Pow2;
      TwiceProduct(Pow2(m), Pow2(n - 1));
    }
  }

  lemma Pow2Word()
    ensures Pow2(32) == WORD
  {
    assert Pow2(8) == 256;
    Pow2Add(8, 8);
    Pow2Add(16, 16);
  }

  /** From 16 fraction bits on the square of the whole unit wraps to zero. */
  lemma WholeSquareWraps(f: nat)
    requires 16 <= f <= 31
    ensures Mul(Pow2(f), Pow2(f)) == 0
  {
    Pow2Word();
    Pow2Add(f, f);
    Pow2Add(2 * f - 32, 32);
  }

  lemma WholeLost(f: nat)
    requires 16 <= f <= 31
    ensures MulRound(Pow2(f), Pow2(f), f) == 0
  {
    WholeSquareWraps(f);
    Pow2Word();
    Pow2Grows(f - 1, 32);
    ShiftRightIs(Add(0, Pow2(f - 1)), f);
    var q := ShiftRight(Add(0, Pow2(f - 1)), f);
    assert q * Pow2(f) < Pow2(f);
    CancelFactor(q, 1, Pow2(f));
  }

  /** The bound holds for every fraction and power exactly up to 15 fraction bits. */
  lemma FixedPowerOkIff(f: nat)
    requires 1 <= f <= 31
    ensures (forall x: nat, n: nat {:trigger PowerOk(x, f, n)} :: x <= Pow2(f) ==> PowerOk(x, f, n)) <==> f <= 15
  {
    if f <= 15 {
      forall x: nat, n: nat | x <= Pow2(f) ensures PowerOk(x, f, n) {
        FixedPowerScaled(x, f, n);
      }
    } else {
      WholeLost(f);
      UnitWhole(f);
      WholePower(f);
    }
  }

  lemma WholePower(f: nat)
    requires 16 <= f <= 31 && MulRound(Pow2(f), Pow2(f), f) == 0 && Unit(Pow2(f), f) == 1.0
    ensures !PowerOk(Pow2(f), f, 1)
  {
    hide MulRound, Unit;
    assert Pow(1.0, 1) == 1.0;
    assert FixedPower(Pow2(f), f, 1) == 0;
  }

  // ---------------------------------------------------------------- calc_load

  function CalcLoad(load: nat, exp: nat, active: nat): nat
    requires exp <= FIXED_1
  {
    Add(Add(Mul(load, exp), Mul(active, FIXED_1 - exp)), 1024) / FIXED_1
  }

  function CalcLoadN(load: nat, exp: nat, active: nat, n: nat): nat
    requires exp <= FIXED_1
  {
    var e := FixedPower(exp, FSHIFT, n);
    if e <= FIXED_1 then CalcLoad(load, e, active) else 0
  }

  /** One calc_load per missed interval. */
  function Iterate(load: nat, exp: nat, active: nat, n: nat): nat
    requires exp <= FIXED_1
  {
    if n == 0 then load else CalcLoad(Iterate(load, exp, active, n - 1), exp, active)
  }

  /** The range in which calc_load cannot wrap. */
  predicate InRange(load: nat, active: nat) {
    load < 0x20_0000 && active < 0x20_0000
  }

  function Product(a: nat, b: nat): nat {
    a * b
  }

  /** load * exp + active * (1 - exp), without wrap-around. */
  function Weighted(load: nat, exp: nat, active: nat): nat
    requires exp <= FIXED_1
  {
    Product(load, exp) + Product(active, FIXED_1 - exp)
  }

  function CalcLoadWide(load: nat, exp: nat, active: nat): nat
    requires exp <= FIXED_1
  {
    (Weighted(load, exp, active) + 1024) / FIXED_1
  }

  function Min(a: nat, b: nat): nat { if a < b then a else b }

  function Max(a: nat, b: nat): nat { if a < b then b else a }

  lemma WeightedBetween(load: nat, exp: nat, active: nat)
    requires exp <= FIXED_1
    ensures Min(load, active) * FIXED_1 <= Weighted(load, exp, active) <= Max(load, active) * FIXED_1
  {
    Shares(Min(load, active), exp);
    Shares(Max(load, active), exp);
    MulMono(Min(load, active), load, exp);
    MulMono(load, Max(load, active), exp);
    MulMono(Min(load, active), active, FIXED_1 - exp);
    MulMono(active, Max(load, active), FIXED_1 - exp);
  }

  lemma Shares(a: nat, exp: nat)
    requires exp <= FIXED_1
    ensures a * exp + a * (FIXED_1 - exp) == a * FIXED_1
  {
  }

  /** In range calc_load does not wrap and stays between the old load and the active count. */
  lemma CalcLoadBetween(load: nat, exp: nat, active: nat)
    requires exp <= FIXED_1 && InRange(load, active)
    ensures CalcLoad(load, exp, active) == CalcLoadWide(load, exp, active)
    ensures Min(load, active) <= CalcLoad(load, exp, active) <= Max(load, active)
  {
    WeightedBetween(load, exp, active);
    assert Mul(load, exp) == Product(load, exp) && Mul(active, FIXED_1 - exp) == Product(active, FIXED_1 - exp);
  }

  /** calc_load is free of wrap-around for every decay factor exactly when both arguments are below 2^21. */
  lemma CalcLoadExactIff(load: nat, active: nat)
    requires load < WORD && active < WORD
    ensures (forall exp {:trigger CalcLoad(load, exp, active)} ::
               0 <= exp <= FIXED_1 ==> CalcLoad(load, exp, active) == CalcLoadWide(load, exp, active))
            <==> InRange(load, active)
  {
    if InRange(load, active) {
      forall exp | 0 <= exp <= FIXED_1 ensures CalcLoad(load, exp, active) == CalcLoadWide(load, exp, active) {
        CalcLoadBetween(load, exp, active);
      }
    } else if load >= 0x20_0000 {
      assert CalcLoad(load, FIXED_1, active) != CalcLoadWide(load, FIXED_1, active);
    } else {
      assert CalcLoad(load, 0, active) != CalcLoadWide(load, 0, active);
    }
  }

  function Fraction(w: nat): real {
    w as real / 2048.0
  }

  /** The exact average after n intervals. */
  function ExactAverage(load: nat, exp: nat, active: nat, n: nat): real {
    Blend(load, active, Pow(Fraction(exp), n))
  }

  /** active moved the fraction p of the way towards load. */
  function Blend(load: nat, active: nat, p: real): real {
    active as real + (load as real - active as real) * p
  }

  /** The error of the n-th power of a weight: (n - 1) / 2 units of 1 / 2048. */
  function WeightGapBound(n: nat): real {
    if n == 0 then 0.0 else (n - 1) as real / 4096.0
  }

  /** Half a unit of rounding and an error e in the weight. */
  function WeightError(load: nat, active: nat, e: real): real {
    0.5 + AbsDiff(load, active) as real * e
  }

  function AbsDiff(a: nat, b: nat): nat { if a < b then b - a else a - b }

  /** One rounded step from l towards active, weighted by w / 2048. */
  lemma StepNear(l: nat, w: nat, active: nat)
    requires w <= FIXED_1 && InRange(l, active)
    ensures Near(CalcLoad(l, w, active), Blend(l, active, Fraction(w)), 0.5)
  {
    CalcLoadBetween(l, w, active);
    var r := CalcLoad(l, w, active);
    var sum := Weighted(l, w, active);
    assert sum - 1024 <= r * FIXED_1 <= sum + 1024;
    RealProduct(l, w);
    RealProduct(active, FIXED_1 - w);
    WeightedReal(l as real, w as real, active as real);
  }

  lemma WeightedReal(l: real, w: real, a: real)
    ensures (a + (l - a) * (w / 2048.0)) * 2048.0 == l * w + a * (2048.0 - w)
  {
  }

  /** A weighted step towards a contracts the distance to the exact average d * p by q. */
  lemma Contract(R: real, l: real, a: real, d: real, p: real, q: real, next: real, e: real)
    requires 0.0 <= q <= 1.0 && next == q * p
    requires -0.5 <= R - (a + (l - a) * q) <= 0.5
    requires -e <= l - (a + d * p) <= e
    ensures -(e + 0.5) <= R - (a + d * next) <= e + 0.5
  {
    Scaled(l - (a + d * p), e, q);
    Spread(l, a, d, p, q);
  }

  lemma Spread(l: real, a: real, d: real, p: real, q: real)
    ensures (l - (a + d * p)) * q == (l - a) * q - d * (q * p)
  {
  }

  lemma {:induction false} IterateNear(load: nat, exp: nat, active: nat, n: nat)
    requires exp <= FIXED_1 && InRange(load, active)
    ensures Min(load, active) <= Iterate(load, exp, active, n) <= Max(load, active)
    ensures Near(Iterate(load, exp, active, n), ExactAverage(load, exp, active, n), n as real / 2.0)
  {
    if n > 0 {
      IterateNear(load, exp, active, n - 1);
      var l := Iterate(load, exp, active, n - 1);
      CalcLoadBetween(l, exp, active);
      StepNear(l, exp, active);
      IterateStep(CalcLoad(l, exp, active), l, load, exp, active, n);
    } else {
      assert Pow(Fraction(exp), 0) == 1.0;
    }
  }

  lemma IterateStep(r: nat, l: nat, load: nat, exp: nat, active: nat, n: nat)
    requires n > 0 && exp <= FIXED_1
    requires Near(r, Blend(l, active, Fraction(exp)), 0.5)
    requires Near(l, ExactAverage(load, exp, active, n - 1), (n - 1) as real / 2.0)
    ensures Near(r, ExactAverage(load, exp, active, n), n as real / 2.0)
  {
    var q, p, next := Fraction(exp), Pow(Fraction(exp), n - 1), Pow(Fraction(exp), n);
    var a, d, e := active as real, load as real - active as real, (n - 1) as real / 2.0;
    assert 0.0 <= q <= 1.0 && next == q * p;
    assert Blend(l, active, q) == a + (l as real - a) * q;
    assert ExactAverage(load, exp, active, n - 1) == a + d * p && ExactAverage(load, exp, active, n) == a + d * next;
    hide Pow, Fraction, Blend, ExactAverage;
    assert -0.5 <= r as real - (a + (l as real - a) * q) <= 0.5;
    assert -e <= l as real - (a + d * p) <= e;
    Contract(r as real, l as real, a, d, p, q, next, e);
    assert e + 0.5 == n as real / 2.0;
  }

  /** The catch-up computed in O(log n) differs from the exact average by half a unit and the error of the power. */
  lemma CalcLoadNNear(load: nat, exp: nat, active: nat, n: nat)
    requires exp <= FIXED_1 && InRange(load, active)
    ensures Near(CalcLoadN(load, exp, active, n), ExactAverage(load, exp, active, n),
                 WeightError(load, active, WeightGapBound(n)))
  {
    var e := FixedPower(exp, FSHIFT, n);
    FixedPower11(exp, n);
    StepNear(load, e, active);
    NearAverage(CalcLoad(load, e, active), load, exp, active, n, e);
  }

  lemma NearAverage(r: nat, load: nat, exp: nat, active: nat, n: nat, e: nat)
    requires Near(r, Blend(load, active, Fraction(e)), 0.5)
    requires Within(Fraction(e), Pow(Fraction(exp), n), WeightGapBound(n))
    ensures Near(r, ExactAverage(load, exp, active, n),
                 WeightError(load, active, WeightGapBound(n)))
  {
    Reweigh(r, load, active, Fraction(e), Pow(Fraction(exp), n), WeightGapBound(n));
  }

  lemma CalcLoadNBetween(load: nat, exp: nat, active: nat, n: nat)
    requires exp <= FIXED_1 && InRange(load, active)
    ensures Min(load, active) <= CalcLoadN(load, exp, active, n) <= Max(load, active)
  {
    FixedPower11(exp, n);
    CalcLoadBetween(load, FixedPower(exp, FSHIFT, n), active);
  }

  /** fixed_power_int with the shift of the load average, as a weight. */
  lemma FixedPower11(exp: nat, n: nat)
    requires exp <= FIXED_1
    ensures FixedPower(exp, FSHIFT, n) <= FIXED_1
    ensures Within(Fraction(FixedPower(exp, FSHIFT, n)), Pow(Fraction(exp), n), WeightGapBound(n))
  {
    hide FixedPower, Pow;
    assert Pow2(FSHIFT) == FIXED_1 by { assert Pow2(5) == 32; }
    FixedPowerBound(exp, FSHIFT, n);
    Unit11(exp);
    Unit11(1);
    Unit11(FixedPower(exp, FSHIFT, n));
    if n > 0 { PowerErrorIs(HalfUnit(FSHIFT), n); }
  }

  lemma Unit11(v: nat)
    ensures Unit(v, FSHIFT) == Fraction(v)
  {
    assert Unit(v, 1) == v as real / 2.0;
    assert Unit(v, 2) == v as real / 4.0;
    assert Unit(v, 3) == v as real / 8.0;
    assert Unit(v, 4) == v as real / 16.0;
    assert Unit(v, 5) == v as real / 32.0;
    assert Unit(v, 6) == v as real / 64.0;
    assert Unit(v, 7) == v as real / 128.0;
    assert Unit(v, 8) == v as real / 256.0;
    assert Unit(v, 9) == v as real / 512.0;
    assert Unit(v, 10) == v as real / 1024.0;
  }

  /** Replacing the weight w by p moves the average by at most |load - active| times their difference. */
  lemma Reweigh(r: nat, load: nat, active: nat, w: real, p: real, bound: real)
    requires Near(r, Blend(load, active, w), 0.5)
    requires -bound <= w - p <= bound
    ensures Near(r, Blend(load, active, p), WeightError(load, active, bound))
  {
    WeightGap(load as real - active as real, AbsDiff(load, active) as real, w, p, bound);
    Widen(r as real, Blend(load, active, w), Blend(load, active, p), AbsDiff(load, active) as real * bound);
  }

  lemma WeightGap(d: real, size: real, w: real, p: real, bound: real)
    requires (d == size || d == -size) && 0.0 <= size && -bound <= w - p <= bound
    ensures -(size * bound) <= d * w - d * p <= size * bound
  {
    DifferenceTimes(w, p, size);
    RealMono(w - p, bound, size);
    RealMono(-bound, w - p, size);
    SignedProducts(d, size, w);
    SignedProducts(d, size, p);
  }

  lemma SignedProducts(d: real, size: real, w: real)
    requires d == size || d == -size
    ensures d * w == if d == size then w * size else -(w * size)
  {
  }

  lemma Widen(R: real, x: real, y: real, e: real)
    requires -0.5 <= R - x <= 0.5 && -e <= x - y <= e
    ensures -(0.5 + e) <= R - y <= 0.5 + e
  {
  }

  /** The fast catch-up against one calc_load for every missed interval. */
  lemma CatchUpError(load: nat, exp: nat, active: nat, n: nat)
    requires exp <= FIXED_1 && InRange(load, active)
    ensures Near(CalcLoadN(load, exp, active, n), Iterate(load, exp, active, n) as real,
                 n as real / 2.0 + WeightError(load, active, WeightGapBound(n)))
  {
    IterateNear(load, exp, active, n);
    CalcLoadNNear(load, exp, active, n);
  }
}
