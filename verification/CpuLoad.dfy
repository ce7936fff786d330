/**
 The per-CPU load averages: decay_load_missed, the table-driven decay over missed ticks, and update_cpu_load.  unsigned
 long has 32 bits; errors are stated over the reals against the exact decay.
 */
module CpuLoad {
  import opened FixedPoint

  const LEVELS := 5

  const DEGRADE_ZERO_TICKS := [0, 8, 32, 64, 128]

  const DEGRADE_FACTOR := [
    [0, 0, 0, 0, 0, 0, 0, 0],
    [64, 32, 8, 0, 0, 0, 0, 0],
    [96, 72, 40, 12, 1, 0, 0, 0],
    [112, 98, 75, 43, 15, 1, 0, 0],
    [120, 112, 98, 76, 45, 16, 2, 0]]

  // ---------------------------------------------------------------- decay_load_missed

  function Multiply(load: nat, factor: nat): nat {
    load * factor % WORD / 128
  }

  /** The loop from column j on. */
  function DecayLoop(load: nat, missed: nat, idx: nat, j: nat): nat
    requires idx < LEVELS && j + Bits(missed) <= 8
    decreases missed
  {
    if missed == 0 then load
    else DecayLoop(if missed % 2 == 1 then Multiply(load, DEGRADE_FACTOR[idx][j]) else load, missed / 2, idx, j + 1)
  }

  function Bits(n: nat): nat {
    if n == 0 then 0 else 1 + Bits(n / 2)
  }

  function Decay(load: nat, missed: nat, idx: nat): nat
    requires idx < LEVELS
  {
    if missed == 0 then load
    else if missed >= DEGRADE_ZERO_TICKS[idx] then 0
    else if idx == 1 then ShiftRight(load, missed)
    else
      FewBits(missed);
      DecayLoop(load, missed, idx, 0)
  }

  lemma FewBits(missed: nat)
    requires missed < 128
    ensures Bits(missed) <= 7
  {
    BitsMono(missed, 127);
    assert Bits(127) == 1 + Bits(63) && Bits(63) == 1 + Bits(31) && Bits(31) == 1 + Bits(15);
    assert Bits(15) == 1 + Bits(7) && Bits(7) == 1 + Bits(3);
  }

  lemma {:induction false} BitsMono(m: nat, n: nat)
    requires m <= n
    ensures Bits(m) <= Bits(n)
  {
    if m > 0 { BitsMono(m / 2, n / 2); }
  }

  method DecayLoadMissed(load0: nat, missed0: nat, idx: nat) returns (load: nat)
    requires idx < LEVELS
    ensures load == Decay(load0, missed0, idx)
  {
    if missed0 == 0 {
      return load0;
    }
    if missed0 >= DEGRADE_ZERO_TICKS[idx] {
      return 0;
    }
    if idx == 1 {
      return ShiftRight(load0, missed0);
    }
    FewBits(missed0);
    load := load0;
    var missed, j := missed0, 0;
    while missed != 0
      invariant j >= 0 && j + Bits(missed) <= 8
      invariant DecayLoop(load, missed, idx, j) == DecayLoop(load0, missed0, idx, 0)
      decreases missed
    {
      if missed % 2 == 1 {
        load := Multiply(load, DEGRADE_FACTOR[idx][j]);
      }
      missed := missed / 2;
      j := j + 1;
    }
  }

  // ---------------------------------------------------------------- the exact decay

  /** (2^idx - 1) / 2^idx */
  function Rate(idx: nat): real
    requires 1 <= idx < LEVELS
  {
    if idx == 1 then 0.5 else if idx == 2 then 0.75 else if idx == 3 then 0.875 else 0.9375
  }

  /** The decay over 2^j ticks. */
  function RateAt(idx: nat, j: nat): real
    requires 1 <= idx < LEVELS
  {
    if j == 0 then Rate(idx) else RateAt(idx, j - 1) * RateAt(idx, j - 1)
  }

  /** An interval for one column gives one for the next; the bounds are checked on the literals. */
  lemma NextColumn(idx: nat, j: nat, lo: real, hi: real, lo2: real, hi2: real)
    requires 1 <= idx < LEVELS && 0.0 <= lo <= RateAt(idx, j) <= hi && lo2 <= lo * lo && hi * hi <= hi2
    ensures lo2 <= RateAt(idx, j + 1) <= hi2
  {
    var x := RateAt(idx, j);
    SquareBetween(x, lo, hi);
    assert RateAt(idx, j + 1) == x * x;
  }

  lemma SquareBetween(x: real, lo: real, hi: real)
    requires 0.0 <= lo <= x <= hi
    ensures lo * lo <= x * x <= hi * hi
  {
    assert lo * lo <= lo * x && lo * x == x * lo && x * lo <= x * x && x * x <= x * hi && x * hi <= hi * hi;
  }

  /** The table entry is the exact decay rounded down to 1/128. */
  predicate EntryOk(idx: nat, j: nat)
    requires 1 <= idx < LEVELS && j < 8
  {
    DEGRADE_FACTOR[idx][j] as real / 128.0 <= RateAt(idx, j) <= DEGRADE_FACTOR[idx][j] as real / 128.0 + 1.0 / 128.0
  }

  lemma FirstColumn(idx: nat)
    requires 1 <= idx < LEVELS
    ensures RateAt(idx, 0) == Rate(idx)
  {
  }

  lemma Row2()
    ensures forall j :: 0 <= j < 7 ==> EntryOk(2, j)
    ensures 0.0 <= RateAt(2, 5) <= 0.0002
  {
    hide RateAt;
    FirstColumn(2);
    NextColumn(2, 0, 0.75, 0.75, 0.5625, 0.5625);
    NextColumn(2, 1, 0.5625, 0.5625, 0.316, 0.317);
    NextColumn(2, 2, 0.316, 0.317, 0.099, 0.101);
    NextColumn(2, 3, 0.099, 0.101, 0.009, 0.011);
    NextColumn(2, 4, 0.009, 0.011, 0.0, 0.0002);
    NextColumn(2, 5, 0.0, 0.0002, 0.0, 0.0002);
  }

  lemma Row3()
    ensures forall j :: 0 <= j < 7 ==> EntryOk(3, j)
    ensures 0.0 <= RateAt(3, 6) <= 0.0004
  {
    hide RateAt;
    FirstColumn(3);
    NextColumn(3, 0, 0.875, 0.875, 0.765625, 0.765625);
    NextColumn(3, 1, 0.765625, 0.765625, 0.5861, 0.5862);
    NextColumn(3, 2, 0.5861, 0.5862, 0.3435, 0.34365);
    NextColumn(3, 3, 0.3435, 0.34365, 0.1179, 0.1182);
    NextColumn(3, 4, 0.1179, 0.1182, 0.0139, 0.014);
    NextColumn(3, 5, 0.0139, 0.014, 0.0, 0.0004);
  }

  lemma Row4()
    ensures forall j :: 0 <= j < 7 ==> EntryOk(4, j)
    ensures 0.0 <= RateAt(4, 7) <= 0.0004
  {
    hide RateAt;
    FirstColumn(4);
    NextColumn(4, 0, 0.9375, 0.9375, 0.8789, 0.87891);
    NextColumn(4, 1, 0.8789, 0.87891, 0.77246, 0.7725);
    NextColumn(4, 2, 0.77246, 0.7725, 0.5966, 0.5968);
    NextColumn(4, 3, 0.5966, 0.5968, 0.3559, 0.3562);
    NextColumn(4, 4, 0.3559, 0.3562, 0.1266, 0.127);
    NextColumn(4, 5, 0.1266, 0.127, 0.016, 0.0162);
    NextColumn(4, 6, 0.016, 0.0162, 0.0, 0.0004);
  }

  // ---------------------------------------------------------------- the error of the table

  /** Below this no product with a table entry wraps. */
  const NO_WRAP := 35791395

  /** The loss allowed to n multiplications: a 128th of the load and one for rounding, each time. */
  function Loss(load: real, n: nat): real {
    if n == 0 then 0.0 else Loss(load, n - 1) + load / 128.0 + 1.0
  }

  lemma {:induction false} LossMono(a: real, b: real, n: nat)
    requires a <= b
    ensures Loss(a, n) <= Loss(b, n)
  {
    if n > 0 { LossMono(a, b, n - 1); }
  }

  lemma {:induction false} LossGrows(a: real, m: nat, n: nat)
    requires 0.0 <= a && m <= n
    ensures 0.0 <= Loss(a, m) <= Loss(a, n)
  {
    if n > 0 { LossGrows(a, if m == n then m - 1 else m, n - 1); }
  }

  predicate LosesAtMost(exact: real, result: real, loss: real) {
    0.0 <= exact - result <= loss
  }

  lemma {:induction false} PowTwice(q: real, n: nat)
    ensures Pow(q * q, n) == Pow(q, 2 * n)
  {
    if n > 0 {
      PowTwice(q, n - 1);
      assert Pow(q, 2 * n) == q * Pow(q, 2 * n - 1) && Pow(q, 2 * n - 1) == q * Pow(q, 2 * (n - 1));
      Regroup(q, Pow(q, 2 * (n - 1)));
    }
  }

  lemma Regroup(q: real, p: real)
    ensures (q * q) * p == q * (q * p)
  {
  }

  /** The power over m ticks from the next column. */
  lemma PowHalves(q: real, next: real, m: nat)
    requires m > 0 && next == q * q
    ensures Pow(q, m) == if m % 2 == 1 then q * Pow(next, m / 2) else Pow(next, m / 2)
  {
    PowTwice(q, m / 2);
    if m % 2 == 1 { assert m == 2 * (m / 2) + 1; } else { assert m == 2 * (m / 2); }
  }

  lemma {:induction false} RateInUnit(idx: nat, j: nat)
    requires 1 <= idx < LEVELS
    ensures 0.0 <= RateAt(idx, j) <= 1.0
  {
    if j > 0 {
      RateInUnit(idx, j - 1);
      Shrink(RateAt(idx, j - 1), RateAt(idx, j - 1));
    }
  }

  /** One multiplication by a table entry d against the exact rate F. */
  lemma RoundedProduct(load: nat, d: nat, F: real, v: nat)
    requires d as real / 128.0 <= F <= d as real / 128.0 + 1.0 / 128.0
    requires 128 * v <= load * d < 128 * v + 128
    ensures LosesAtMost(load as real * F, v as real, load as real / 128.0 + 1.0)
  {
    var l, p := load as real, (load * d) as real;
    Times(l, d as real / 128.0, F);
    Times(l, F, d as real / 128.0 + 1.0 / 128.0);
    LoadTimes(load, d);
    assert l * (d as real / 128.0) == p / 128.0;
    assert l * (d as real / 128.0 + 1.0 / 128.0) == p / 128.0 + l / 128.0;
  }

  lemma Times(l: real, a: real, b: real)
    requires 0.0 <= l && a <= b
    ensures l * a <= l * b
  {
  }

  lemma LoadTimes(load: nat, d: nat)
    ensures (load * d) as real == load as real * d as real
  {
  }

  lemma Carry(l: real, F: real, Q: real, P: real, v: real, loss: real)
    requires 0.0 <= Q <= 1.0 && P == F * Q && LosesAtMost(l * F, v, loss)
    ensures LosesAtMost(l * P, v * Q, loss)
  {
    var lF := l * F;
    Associate(l, F, Q, P, lF);
    Scale(lF, v, Q, loss);
  }

  lemma Associate(l: real, F: real, Q: real, P: real, lF: real)
    requires P == F * Q && lF == l * F
    ensures l * P == lF * Q
  {
  }

  lemma Scale(a: real, v: real, Q: real, loss: real)
    requires 0.0 <= Q <= 1.0 && LosesAtMost(a, v, loss)
    ensures LosesAtMost(a * Q, v * Q, loss)
  {
    var d := a - v;
    assert 0.0 <= d <= loss;
    Shrink(d, Q);
    Distribute(a, v, d, Q);
    LossOf(a * Q, v * Q, Q * d, d, loss);
  }

  lemma LossOf(x: real, y: real, gap: real, d: real, loss: real)
    requires gap == x - y && 0.0 <= gap <= d <= loss
    ensures LosesAtMost(x, y, loss)
  {
  }

  lemma Distribute(a: real, v: real, d: real, Q: real)
    requires d == a - v
    ensures Q * d == a * Q - v * Q
  {
  }

  lemma Entry(idx: nat, j: nat)
    requires 2 <= idx < LEVELS && j < 7
    ensures EntryOk(idx, j) && DEGRADE_FACTOR[idx][j] <= 120
  {
    Row2();
    Row3();
    Row4();
  }

  lemma MultiplyExact(load: nat, d: nat)
    requires load < NO_WRAP && d <= 120
    ensures 128 * Multiply(load, d) <= load * d < 128 * Multiply(load, d) + 128 && Multiply(load, d) <= load
  {
    AtMost(load, d);
    Quotient(load * d, load);
  }

  lemma AtMost(load: nat, d: nat)
    requires d <= 120
    ensures 0 <= load * d <= load * 120
  {
  }

  lemma Quotient(p: nat, load: nat)
    requires p <= load * 120 && load < NO_WRAP
    ensures var v := p % WORD / 128; 128 * v <= p < 128 * v + 128 && v <= load
  {
    assert p < WORD;
  }

  function Product(load: nat, p: real): real {
    load as real * p
  }

  /** The loop from column j loses at most a 128th of the load and one per bit. */
  lemma {:induction false} DecayLoopNear(load: nat, m: nat, idx: nat, j: nat)
    requires 2 <= idx < LEVELS && load < NO_WRAP && j + Bits(m) <= 7
    ensures LosesAtMost(Product(load, Pow(RateAt(idx, j), m)), DecayLoop(load, m, idx, j) as real, Loss(load as real, Bits(m)))
    decreases m
  {
    if m > 0 {
      var v := if m % 2 == 1 then Multiply(load, DEGRADE_FACTOR[idx][j]) else load;
      Entry(idx, j);
      MultiplyExact(load, DEGRADE_FACTOR[idx][j]);
      DecayLoopNear(v, m / 2, idx, j + 1);
      OneColumn(load, m, idx, j, v);
      hide Product, Pow, RateAt, Multiply;
      LossMono(v as real, load as real, Bits(m / 2));
    }
  }

  lemma OneColumn(load: nat, m: nat, idx: nat, j: nat, v: nat)
    requires 2 <= idx < LEVELS && load < NO_WRAP && m > 0 && j < 7
    requires v == if m % 2 == 1 then Multiply(load, DEGRADE_FACTOR[idx][j]) else load
    ensures LosesAtMost(Product(load, Pow(RateAt(idx, j), m)), Product(v, Pow(RateAt(idx, j + 1), m / 2)),
                   load as real / 128.0 + 1.0)
  {
    hide RateAt, Pow, Product, Multiply;
    ColumnPowers(idx, j, m);
    Entry(idx, j);
    PlainColumn(load, DEGRADE_FACTOR[idx][j], m % 2 == 1, RateAt(idx, j), Pow(RateAt(idx, j + 1), m / 2),
                Pow(RateAt(idx, j), m), v);
  }

  lemma ColumnPowers(idx: nat, j: nat, m: nat)
    requires 1 <= idx < LEVELS && m > 0
    ensures Pow(RateAt(idx, j), m) == if m % 2 == 1 then RateAt(idx, j) * Pow(RateAt(idx, j + 1), m / 2)
                                      else Pow(RateAt(idx, j + 1), m / 2)
    ensures 0.0 <= Pow(RateAt(idx, j + 1), m / 2) <= 1.0
  {
    hide Pow;
    RateInUnit(idx, j + 1);
    PowHalves(RateAt(idx, j), RateAt(idx, j + 1), m);
    PowInUnit(RateAt(idx, j + 1), m / 2);
  }

  lemma PlainColumn(load: nat, d: nat, odd: bool, F: real, Q: real, P: real, v: nat)
    requires load < NO_WRAP && d <= 120 && 0.0 <= Q <= 1.0
    requires d as real / 128.0 <= F <= d as real / 128.0 + 1.0 / 128.0
    requires v == if odd then Multiply(load, d) else load
    requires P == if odd then F * Q else Q
    ensures LosesAtMost(Product(load, P), Product(v, Q), load as real / 128.0 + 1.0)
  {
    hide Multiply;
    if odd {
      MultiplyExact(load, d);
      RoundedProduct(load, d, F, v);
      Carry(load as real, F, Q, P, v as real, load as real / 128.0 + 1.0);
    }
  }

  lemma {:induction false} RateAtIsPow(idx: nat, j: nat)
    requires 1 <= idx < LEVELS
    ensures RateAt(idx, j) == Pow(Rate(idx), Pow2(j))
  {
    if j == 0 {
      assert Pow(Rate(idx), 1) == Rate(idx) * Pow(Rate(idx), 0);
    } else {
      RateAtIsPow(idx, j - 1);
      PowAdd(Rate(idx), Pow2(j - 1), Pow2(j - 1));
    }
  }

  lemma PowNext(q: real, n: nat)
    requires 0.0 <= q <= 1.0
    ensures 0.0 <= Pow(q, n + 1) <= Pow(q, n)
  {
    PowInUnit(q, n);
    var p := Pow(q, n);
    Shrink(p, q);
  }

  lemma {:induction false} PowAntitone(q: real, m: nat, n: nat)
    requires 0.0 <= q <= 1.0 && m <= n
    ensures 0.0 <= Pow(q, n) <= Pow(q, m)
  {
    hide Pow;
    if m < n {
      PowAntitone(q, m, n - 1);
      PowNext(q, n - 1);
    } else {
      PowInUnit(q, n);
    }
  }

  /** After degrade_zero_ticks less than a 128th is left. */
  lemma ZeroTicks(idx: nat, n: nat)
    requires 1 <= idx < LEVELS && n >= DEGRADE_ZERO_TICKS[idx]
    ensures 0.0 <= Pow(Rate(idx), n) <= 1.0 / 128.0
  {
    var j := idx + 3;
    if idx == 1 { j := 3; }
    if idx == 2 { j := 5; }
    if idx == 3 { j := 6; }
    LastColumn(idx, j);
    assert Pow2(3) == 8;
    assert Pow2(5) == 32;
    assert Pow2(6) == 64;
    assert Pow2(7) == 128 by { assert Pow2(7) == 2 * Pow2(6); }
    RateAtIsPow(idx, j);
    hide RateAt, Pow;
    PowAntitone(Rate(idx), DEGRADE_ZERO_TICKS[idx], n);
  }

  lemma LastColumn(idx: nat, j: nat)
    requires 1 <= idx < LEVELS && j == (if idx == 1 then 3 else idx + 3)
    ensures 0.0 <= RateAt(idx, j) <= 1.0 / 128.0
  {
    hide RateAt;
    if idx == 1 {
      FirstColumn(1);
      NextColumn(1, 0, 0.5, 0.5, 0.25, 0.25);
      NextColumn(1, 1, 0.25, 0.25, 0.0625, 0.0625);
      NextColumn(1, 2, 0.0625, 0.0625, 0.0, 0.005);
    } else {
      Row2();
      Row3();
      Row4();
    }
  }

  lemma {:induction false} ShiftNear(load: nat, n: nat)
    ensures LosesAtMost(Product(load, Pow(0.5, n)), ShiftRight(load, n) as real, 1.0 - Pow(0.5, n))
  {
    if n > 0 {
      ShiftNear(load / 2, n - 1);
      PowInUnit(0.5, n - 1);
      HalfLoad(load, Pow(0.5, n - 1));
    }
  }

  lemma HalfLoad(load: nat, p: real)
    requires 0.0 <= p <= 1.0
    ensures LosesAtMost(Product(load, 0.5 * p), Product(load / 2, p), 0.5 * p)
  {
    if load % 2 == 0 {
      assert load as real == 2.0 * (load / 2) as real;
    } else {
      assert load as real == 2.0 * (load / 2) as real + 1.0;
    }
    assert Product(load, 0.5 * p) == (0.5 * load as real) * p;
  }

  lemma SevenLosses(load: real)
    requires 0.0 <= load
    ensures Loss(load, 7) == 7.0 * (load / 128.0 + 1.0)
  {
    assert Loss(load, 1) == load / 128.0 + 1.0;
    assert Loss(load, 3) == 3.0 * (load / 128.0 + 1.0);
    assert Loss(load, 5) == 5.0 * (load / 128.0 + 1.0);
  }

  /** The bound promised for the table: never above the exact decay and at most seven roundings below it. */
  predicate DecayOk(load: nat, n: nat, idx: nat)
    requires 1 <= idx < LEVELS
  {
    LosesAtMost(Product(load, Pow(Rate(idx), n)), Decay(load, n, idx) as real, 7.0 * (load as real / 128.0 + 1.0))
  }

  lemma SmallPart(l: real, p: real)
    requires 0.0 <= l && 0.0 <= p <= 1.0 / 128.0
    ensures 0.0 <= l * p <= l / 128.0
  {
    Times(l, 0.0, p);
    Times(l, p, 1.0 / 128.0);
  }

  lemma ZeroNear(load: nat, n: nat, idx: nat)
    requires 1 <= idx < LEVELS && n > 0 && n >= DEGRADE_ZERO_TICKS[idx]
    ensures DecayOk(load, n, idx)
  {
    ZeroTicks(idx, n);
    assert Decay(load, n, idx) == 0;
    hide Pow, Rate, Decay;
    var l, p := load as real, Pow(Rate(idx), n);
    SmallPart(l, p);
    assert Product(load, p) == l * p;
    SevenTimes(l, l * p);
  }

  lemma SevenTimes(l: real, x: real)
    requires 0.0 <= x <= l / 128.0
    ensures LosesAtMost(x, 0.0, 7.0 * (l / 128.0 + 1.0))
  {
  }

  lemma ShiftedNear(load: nat, n: nat)
    requires 0 < n < 8
    ensures DecayOk(load, n, 1)
  {
    hide Pow, Product, ShiftRight;
    ShiftNear(load, n);
    PowInUnit(0.5, n);
  }

  lemma LoopedNear(load: nat, n: nat, idx: nat)
    requires 2 <= idx < LEVELS && load < NO_WRAP && 0 < n < DEGRADE_ZERO_TICKS[idx]
    ensures DecayOk(load, n, idx)
  {
    hide Pow, Product, Rate, RateAt, DecayLoop;
    FewBits(n);
    FirstColumn(idx);
    DecayLoopNear(load, n, idx, 0);
    LossGrows(load as real, Bits(n), 7);
    SevenLosses(load as real);
  }

  lemma DecayNear(load: nat, n: nat, idx: nat)
    requires 1 <= idx < LEVELS && load < NO_WRAP
    ensures DecayOk(load, n, idx)
  {
    if n == 0 {
      assert Pow(Rate(idx), 0) == 1.0;
    } else if n >= DEGRADE_ZERO_TICKS[idx] {
      ZeroNear(load, n, idx);
    } else if idx == 1 {
      ShiftedNear(load, n);
    } else {
      LoopedNear(load, n, idx);
    }
  }

  /** The bound holds for every number of ticks and every average exactly when no product of the load can wrap. */
  lemma DecayOkIff(load: nat)
    requires load < WORD
    ensures (forall n: nat, idx: nat {:trigger DecayOk(load, n, idx)} :: 1 <= idx < LEVELS ==> DecayOk(load, n, idx))
            <==> load < NO_WRAP
  {
    if load < NO_WRAP {
      forall n: nat, idx: nat | 1 <= idx < LEVELS ensures DecayOk(load, n, idx) { DecayNear(load, n, idx); }
    } else {
      WrappedDecay(load);
    }
  }

  lemma WrappedDecay(load: nat)
    requires NO_WRAP <= load < WORD
    ensures !DecayOk(load, 1, 4)
  {
    assert Decay(load, 1, 4) == Multiply(load, 120) by {
      assert DecayLoop(load, 1, 4, 0) == DecayLoop(Multiply(load, 120), 0, 4, 1);
    }
    assert Pow(0.9375, 1) == 0.9375 * Pow(0.9375, 0);
    var p := load * 120;
    var k := p / WORD;
    assert p == k * WORD + p % WORD && k >= 1;
  }

  // ---------------------------------------------------------------- update_cpu_load

  /** 1 << i */
  function Scale2(i: nat): nat
    requires 1 <= i < LEVELS
  {
    if i == 1 then 2 else if i == 2 then 4 else if i == 3 then 8 else 16
  }

  /** The new average from the decayed old one, in unsigned long. */
  function Average(old_: nat, load: nat, i: nat): nat
    requires 1 <= i < LEVELS
  {
    var s := Scale2(i);
    var newLoad := if load > old_ then (load + s - 1) % WORD else load;
    (old_ * (s - 1) + newLoad) % WORD / s
  }

  /** The average without wrap-around, rounded towards the load. */
  function AverageWide(old_: nat, load: nat, i: nat): nat
    requires 1 <= i < LEVELS
  {
    var s := Scale2(i);
    (old_ * (s - 1) + load + (if load > old_ then s - 1 else 0)) / s
  }

  /** No sum of an average wraps, whichever average it is. */
  predicate NoWrap(old_: nat, load: nat) {
    15 * old_ + load + (if load > old_ then 15 else 0) < WORD
  }

  function Distance(a: nat, b: nat): nat {
    if a < b then b - a else a - b
  }

  /** d / 2^i rounded up. */
  function Share(d: nat, i: nat): nat
    requires 1 <= i < LEVELS
  {
    (d + Scale2(i) - 1) / Scale2(i)
  }

  /** One step moves the average towards the load by its share of the distance, and never past it. */
  predicate Moved(old_: nat, load: nat, i: nat, r: nat)
    requires 1 <= i < LEVELS
  {
    && Distance(r, load) == Distance(old_, load) - Share(Distance(old_, load), i)
    && (if old_ <= load then old_ <= r <= load else load <= r <= old_)
  }

  lemma WideMoves(old_: nat, load: nat, i: nat)
    requires 1 <= i < LEVELS
    ensures Moved(old_, load, i, AverageWide(old_, load, i))
  {
    if i == 1 {
      MovesHalf(old_, load);
    } else if i == 2 {
      MovesQuarter(old_, load);
    } else if i == 3 {
      MovesEighth(old_, load);
    } else {
      MovesSixteenth(old_, load);
    }
  }

  lemma MovesHalf(old_: nat, load: nat)
    ensures Moved(old_, load, 1, AverageWide(old_, load, 1))
  {
    assert AverageWide(old_, load, 1) == (old_ * 1 + load + (if load > old_ then 1 else 0)) / 2;
  }

  lemma MovesQuarter(old_: nat, load: nat)
    ensures Moved(old_, load, 2, AverageWide(old_, load, 2))
  {
    assert AverageWide(old_, load, 2) == (old_ * 3 + load + (if load > old_ then 3 else 0)) / 4;
  }

  lemma MovesEighth(old_: nat, load: nat)
    ensures Moved(old_, load, 3, AverageWide(old_, load, 3))
  {
    assert AverageWide(old_, load, 3) == (old_ * 7 + load + (if load > old_ then 7 else 0)) / 8;
  }

  lemma MovesSixteenth(old_: nat, load: nat)
    ensures Moved(old_, load, 4, AverageWide(old_, load, 4))
  {
    assert AverageWide(old_, load, 4) == (old_ * 15 + load + (if load > old_ then 15 else 0)) / 16;
  }

  lemma AverageIsWide(old_: nat, load: nat, i: nat)
    requires 1 <= i < LEVELS && NoWrap(old_, load)
    ensures Average(old_, load, i) == AverageWide(old_, load, i)
  {
    var s := Scale2(i);
    UpToFifteen(old_, s - 1);
    SumExact(old_ * (s - 1), load, s, load > old_);
  }

  lemma UpToFifteen(old_: nat, m: nat)
    requires m <= 15
    ensures 0 <= old_ * m <= 15 * old_
  {
  }

  lemma SumExact(p: nat, load: nat, s: nat, up: bool)
    requires s >= 1 && p + load + (if up then s - 1 else 0) < WORD
    ensures (p + (if up then (load + s - 1) % WORD else load)) % WORD == p + load + (if up then s - 1 else 0)
  {
  }

  /** All averages are free of wrap-around exactly when the slowest is. */
  lemma AverageExactIff(old_: nat, load: nat)
    requires old_ < WORD && load < WORD
    ensures NoWrap(old_, load)
            <==> forall i: nat {:trigger Average(old_, load, i)} :: 1 <= i < LEVELS ==>
                   Average(old_, load, i) == AverageWide(old_, load, i)
  {
    if NoWrap(old_, load) {
      forall i: nat | 1 <= i < LEVELS ensures Average(old_, load, i) == AverageWide(old_, load, i) {
        AverageIsWide(old_, load, i);
      }
    } else {
      var sum := 15 * old_ + load + (if load > old_ then 15 else 0);
      assert AverageWide(old_, load, 4) == sum / 16;
      WrappedSixteenth(old_, load, sum);
    }
  }

  lemma WrappedSixteenth(old_: nat, load: nat, sum: nat)
    requires sum == 15 * old_ + load + (if load > old_ then 15 else 0) && sum >= WORD && load < WORD
    ensures Average(old_, load, 4) == sum % WORD / 16 < sum / 16
  {
    if load > old_ { WrapsTwice(15 * old_, load + 15); }
    SmallerAfterWrap(sum);
  }

  lemma WrapsTwice(p: nat, x: nat)
    ensures (p + x % WORD) % WORD == (p + x) % WORD
  {
  }

  lemma SmallerAfterWrap(sum: nat)
    requires sum >= WORD
    ensures sum % WORD / 16 < sum / 16
  {
    assert sum % WORD <= sum - WORD;
  }

  // ---------------------------------------------------------------- convergence

  /** The average after n ticks of constant load, none missed. */
  function Ticks(avg: nat, load: nat, i: nat, n: nat): nat
    requires 1 <= i < LEVELS
    decreases n
  {
    if n == 0 then avg else Ticks(Average(avg, load, i), load, i, n - 1)
  }

  /** A range in which average i does not wrap; whatever it was before, one tick brings it there. */
  predicate InRange(avg: nat, load: nat, i: nat)
    requires 1 <= i < LEVELS
  {
    avg < WORD / Scale2(i) && load < 0x1000_0000
  }

  lemma AverageBelow(avg: nat, load: nat, i: nat)
    requires 1 <= i < LEVELS
    ensures Average(avg, load, i) < WORD / Scale2(i)
  {
  }

  lemma RangeExact(avg: nat, load: nat, i: nat)
    requires 1 <= i < LEVELS && InRange(avg, load, i)
    ensures Average(avg, load, i) == AverageWide(avg, load, i)
  {
    var s := Scale2(i);
    var p := avg * (s - 1);
    RangeSum(avg, load, i, p);
    SumExact(p, load, s, load > avg);
  }

  lemma RangeSum(avg: nat, load: nat, i: nat, p: nat)
    requires 1 <= i < LEVELS && InRange(avg, load, i) && p == avg * (Scale2(i) - 1)
    ensures p + load + (if load > avg then Scale2(i) - 1 else 0) < WORD
  {
    if i == 1 {
      assert p == avg;
    } else if i == 2 {
      assert p == 3 * avg;
    } else if i == 3 {
      assert p == 7 * avg;
    } else {
      assert p == 15 * avg;
    }
  }

  lemma StepInRange(avg: nat, load: nat, i: nat)
    requires 1 <= i < LEVELS && InRange(avg, load, i)
    ensures Moved(avg, load, i, Average(avg, load, i)) && InRange(Average(avg, load, i), load, i)
  {
    RangeExact(avg, load, i);
    WideMoves(avg, load, i);
    AverageBelow(avg, load, i);
  }

  lemma ShareAtLeastOne(d: nat, i: nat)
    requires 1 <= i < LEVELS && d > 0
    ensures 1 <= Share(d, i) <= d
  {
  }

  /** Under constant load an average in range reaches the load exactly, in at most as many ticks as it was away, and
      stays. */
  lemma {:induction false} ReachesLoad(avg: nat, load: nat, i: nat, n: nat)
    requires 1 <= i < LEVELS && InRange(avg, load, i) && n >= Distance(avg, load)
    ensures Ticks(avg, load, i, n) == load
    decreases n
  {
    if n > 0 {
      StepInRange(avg, load, i);
      if avg != load { ShareAtLeastOne(Distance(avg, load), i); }
      ReachesLoad(Average(avg, load, i), load, i, n - 1);
    }
  }

  lemma {:induction false} LastTick(avg: nat, load: nat, i: nat, n: nat)
    requires 1 <= i < LEVELS
    ensures Ticks(avg, load, i, n + 1) == Average(Ticks(avg, load, i, n), load, i)
    decreases n
  {
    if n > 0 { LastTick(Average(avg, load, i), load, i, n - 1); }
  }

  /** A load of 2^28 or more is not kept by the slowest average. */
  lemma LeavesLoad(load: nat)
    requires 0x1000_0000 <= load
    ensures Average(load, load, 4) != load
  {
    AverageBelow(load, load, 4);
  }

  /** From any values at all the averages come to rest at the load if and only if the load is below 2^28. */
  lemma ReachesLoadIff(load: nat)
    requires load < WORD
    ensures (forall avg: nat, i: nat, n: nat {:trigger Ticks(avg, load, i, n)} ::
               avg < WORD && 1 <= i < LEVELS && n > 0x8000_0000 ==> Ticks(avg, load, i, n) == load)
            <==> load < 0x1000_0000
  {
    hide Average;
    if load < 0x1000_0000 {
      forall avg: nat, i: nat, n: nat | avg < WORD && 1 <= i < LEVELS && n > 0x8000_0000
        ensures Ticks(avg, load, i, n) == load
      {
        AverageBelow(avg, load, i);
        ReachesLoad(Average(avg, load, i), load, i, n - 1);
      }
    } else {
      LastTick(load, load, 4, 0x8000_0001);
      LeavesLoad(load);
    }
  }

  // ---------------------------------------------------------------- the method

  /** Even where a product wraps, decay does not increase a load. */
  lemma DecayAtMost(load: nat, n: nat, idx: nat)
    requires 1 <= idx < LEVELS
    ensures Decay(load, n, idx) <= load
  {
    if n == 0 {
    } else if n >= DEGRADE_ZERO_TICKS[idx] {
    } else if idx == 1 {
      ShiftAtMost(load, n);
    } else {
      FewBits(n);
      LoopAtMost(load, n, idx, 0);
    }
  }

  lemma {:induction false} ShiftAtMost(load: nat, n: nat)
    ensures ShiftRight(load, n) <= load
  {
    if n > 0 { ShiftAtMost(load / 2, n - 1); }
  }

  lemma MultiplyAtMost(load: nat, d: nat)
    requires d <= 120
    ensures Multiply(load, d) <= load
  {
    if load < NO_WRAP {
      MultiplyExact(load, d);
    } else {
      assert Multiply(load, d) < WORD / 128;
    }
  }

  lemma {:induction false} LoopAtMost(load: nat, m: nat, idx: nat, j: nat)
    requires 2 <= idx < LEVELS && j + Bits(m) <= 7
    ensures DecayLoop(load, m, idx, j) <= load
    decreases m
  {
    hide Multiply;
    if m > 0 {
      var v := if m % 2 == 1 then Multiply(load, DEGRADE_FACTOR[idx][j]) else load;
      Entry(idx, j);
      MultiplyAtMost(load, DEGRADE_FACTOR[idx][j]);
      LoopAtMost(v, m / 2, idx, j + 1);
    }
  }

  /** d is what decay may leave of a load after n ticks: at most seven roundings below the exact value, never above. */
  predicate Decayed(load: nat, n: nat, idx: nat, d: nat)
    requires 1 <= idx < LEVELS
  {
    && d <= load && (n == 0 ==> d == load)
    && (load < NO_WRAP ==>
          LosesAtMost(Product(load, Pow(Rate(idx), n)), d as real, 7.0 * (load as real / 128.0 + 1.0)))
  }

  /** What an update makes of one average: it moves from the decayed old value towards the load. */
  ghost predicate Averaged(old_: nat, load: nat, i: nat, pending: nat, r: nat)
    requires 1 <= i < LEVELS && pending >= 1
  {
    && r < WORD / Scale2(i)
    && (InRange(old_, load, i) ==> exists d: nat :: Decayed(old_, pending - 1, i, d) && Moved(d, load, i, r))
  }

  lemma UpdateAverages(old_: nat, load: nat, i: nat, pending: nat)
    requires 1 <= i < LEVELS && pending >= 1
    ensures Averaged(old_, load, i, pending, Average(Decay(old_, pending - 1, i), load, i))
  {
    var d := Decay(old_, pending - 1, i);
    AverageBelow(d, load, i);
    if InRange(old_, load, i) {
      DecayAtMost(old_, pending - 1, i);
      if old_ < NO_WRAP { DecayNear(old_, pending - 1, i); }
      StepInRange(d, load, i);
      assert Decayed(old_, pending - 1, i, d) && Moved(d, load, i, Average(d, load, i));
    }
  }

  /** Without missed ticks each average comes closer to the load by its share. */
  lemma AveragedTick(old_: nat, load: nat, i: nat, r: nat)
    requires 1 <= i < LEVELS && InRange(old_, load, i) && Averaged(old_, load, i, 1, r)
    ensures Moved(old_, load, i, r) && InRange(r, load, i)
  {
    var d: nat :| Decayed(old_, 0, i, d) && Moved(d, load, i, r);
  }

  method NewAverage(oldLoad: nat, load: nat, i: nat, scale: nat) returns (average: nat)
    requires 1 <= i < LEVELS && scale == Scale2(i)
    ensures average == Average(oldLoad, load, i)
  {
    var newLoad := load;
    if newLoad > oldLoad {
      newLoad := (newLoad + scale - 1) % WORD;
    }
    average := (oldLoad * (scale - 1) + newLoad) % WORD / scale;
  }

  class RunQueue {
    var weight: nat
    var lastTick: nat
    const cpuLoad: array<nat>

    constructor (lastTick: nat)
      ensures cpuLoad.Length == LEVELS && fresh(cpuLoad) && this.lastTick == lastTick && weight == 0
      ensures cpuLoad[..] == [0, 0, 0, 0, 0]
    {
      weight, this.lastTick := 0, lastTick;
      cpuLoad := new nat[LEVELS](_ => 0);
    }

    /** update_cpu_load; jiffies is an unsigned long and may have wrapped since the last update. */
    method UpdateCpuLoad(jiffies: nat)
      requires cpuLoad.Length == LEVELS && jiffies < WORD && lastTick < WORD
      modifies this`lastTick, cpuLoad
      ensures lastTick == jiffies
      ensures jiffies == old(lastTick) ==> cpuLoad[..] == old(cpuLoad[..])
      ensures jiffies != old(lastTick) ==>
                && cpuLoad[0] == weight
                && forall i :: 1 <= i < LEVELS ==>
                     Averaged(old(cpuLoad[i]), weight, i, (jiffies - old(lastTick)) % WORD, cpuLoad[i])
    {
      var load := weight;
      if jiffies == lastTick {
        return;
      }
      var pending := (jiffies - lastTick) % WORD;
      lastTick := jiffies;
      hide Average, Decay, Averaged;
      cpuLoad[0] := load;
      var scale := 2;
      for i := 1 to LEVELS
        modifies cpuLoad
        invariant i < LEVELS ==> scale == Scale2(i)
        invariant cpuLoad[0] == load
        invariant forall k :: 1 <= k < i ==> Averaged(old(cpuLoad[k]), load, k, pending, cpuLoad[k])
        invariant forall k :: i <= k < LEVELS ==> cpuLoad[k] == old(cpuLoad[k])
      {
        var oldLoad := DecayLoadMissed(cpuLoad[i], pending - 1, i);
        var average := NewAverage(oldLoad, load, i, scale);
        UpdateAverages(cpuLoad[i], load, i, pending);
        cpuLoad[i] := average;
        scale := scale + scale;
      }
    }

    /** A tick that update_cpu_load sees in its jiffy brings every average in range closer to the load. */
    method Tick()
      requires cpuLoad.Length == LEVELS && lastTick < WORD && AllInRange()
      modifies this`lastTick, cpuLoad
      ensures lastTick == (old(lastTick) + 1) % WORD && AllInRange() && cpuLoad[0] == weight
      ensures forall i :: 1 <= i < LEVELS ==> Moved(old(cpuLoad[i]), weight, i, cpuLoad[i])
    {
      var next := (lastTick + 1) % WORD;
      OneJiffy(lastTick, next);
      ghost var before := cpuLoad[..];
      hide Averaged, Moved;
      UpdateCpuLoad(next);
      forall i | 1 <= i < LEVELS
        ensures Moved(old(cpuLoad[i]), weight, i, cpuLoad[i]) && InRange(cpuLoad[i], weight, i)
      {
        AveragedTick(before[i], weight, i, cpuLoad[i]);
      }
    }

    ghost predicate AllInRange()
      reads this, cpuLoad
    {
      cpuLoad.Length == LEVELS && forall i :: 1 <= i < LEVELS ==> InRange(cpuLoad[i], weight, i)
    }

    /** n such ticks under a constant load: after as many as an average is away from the load it has reached it. */
    method Steady(n: nat)
      requires cpuLoad.Length == LEVELS && lastTick < WORD && AllInRange()
      modifies this`lastTick, cpuLoad
      ensures AllInRange() && (n > 0 ==> cpuLoad[0] == weight)
      ensures forall i :: 1 <= i < LEVELS && n >= Distance(old(cpuLoad[i]), weight) ==> cpuLoad[i] == weight
    {
      hide Moved;
      for k := 0 to n
        invariant lastTick < WORD && AllInRange() && (k > 0 ==> cpuLoad[0] == weight)
        invariant forall i :: 1 <= i < LEVELS ==> Approached(old(cpuLoad[i]), weight, k, cpuLoad[i])
      {
        ghost var before := cpuLoad[..];
        Tick();
        forall i | 1 <= i < LEVELS ensures Approached(old(cpuLoad[i]), weight, k + 1, cpuLoad[i]) {
          Closer(old(cpuLoad[i]), before[i], weight, i, k, cpuLoad[i]);
        }
      }
    }
  }

  /** After k ticks the average has come closer by k at least, or has reached the load. */
  predicate Approached(old_: nat, load: nat, k: nat, r: nat) {
    Distance(r, load) + k <= Distance(old_, load) || r == load
  }

  lemma Closer(start: nat, old_: nat, load: nat, i: nat, k: nat, r: nat)
    requires 1 <= i < LEVELS && Approached(start, load, k, old_) && Moved(old_, load, i, r)
    ensures Approached(start, load, k + 1, r)
  {
    if old_ != load { ShareAtLeastOne(Distance(old_, load), i); }
  }

  lemma OneJiffy(last: nat, next: nat)
    requires last < WORD && next == (last + 1) % WORD
    ensures next != last && next < WORD && (next - last) % WORD == 1
  {
  }
}
