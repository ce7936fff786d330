/** Powers and shifts shared by the load averages. */
module FixedPoint {

  /** Values of unsigned long on a 32-bit machine. */
  const WORD := 0x1_0000_0000

  function Pow2(n: nat): (r: nat)
    ensures r > 0
  {
    if n == 0 then 1 else 2 * Pow2(n - 1)
  }

  function Pow(q: real, n: nat): real {
    if n == 0 then 1.0 else q * Pow(q, n - 1)
  }

  /** x >> n */
  function ShiftRight(x: nat, n: nat): nat {
    if n == 0 then x else ShiftRight(x / 2, n - 1)
  }

  lemma Shrink(a: real, q: real)
    requires 0.0 <= q <= 1.0 && 0.0 <= a
    ensures 0.0 <= q * a <= a
  {
  }

  lemma {:induction false} PowAdd(q: real, m: nat, n: nat)
    ensures Pow(q, m + n) == Pow(q, m) * Pow(q, n)
  {
    if m > 0 {
      PowAdd(q, m - 1, n);
      Reassociate(q, Pow(q, m - 1), Pow(q, n));
    }
  }

  lemma Reassociate(q: real, a: real, b: real)
    ensures q * (a * b) == (q * a) * b
  {
  }

  lemma {:induction false} PowInUnit(q: real, n: nat)
    requires 0.0 <= q <= 1.0
    ensures 0.0 <= Pow(q, n) <= 1.0
  {
    if n > 0 {
      PowInUnit(q, n - 1);
      Shrink(Pow(q, n - 1), q);
    }
  }
}
