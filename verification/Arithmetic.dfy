/** Facts about products and quotients of variables, which the proofs elsewhere name instead of searching for. */
module Arithmetic {

  lemma MulMonotone(n: nat, x: int, y: int)
    requires x <= y
    ensures n * x <= n * y
  {
  }

  /** The quotient is the only number with a remainder that fits. */
  lemma DivIs(i: nat, n: nat, q: nat, r: nat)
    requires n >= 1 && i == n * q + r && r < n
    ensures i / n == q
  {
    var q1 := i / n;
    assert i == n * q1 + i % n && 0 <= i % n < n;
    assert n * (q1 + 1) == n * q1 + n && n * (q + 1) == n * q + n;
    if q1 < q {
      MulMonotone(n, q1 + 1, q);
    } else if q1 > q {
      MulMonotone(n, q + 1, q1);
    }
  }

  lemma WholeAndRest(i: nat, n: nat)
    requires n >= 1
    ensures i / n >= 0 && i == (i / n) * n + i % n
  {
  }

  lemma DoubleOfProduct(a: nat, b: nat)
    ensures 2 * (a * b) == 2 * a * b
  {
  }

  /** One more digit, at the place with value p. */
  lemma Regroup(v: nat, base: nat, c: nat, p: nat)
    ensures (v * base + c) * p == v * (p * base) + c * p
  {
  }

  lemma DivIsNatural(i: nat, n: nat)
    requires n >= 1
    ensures i / n >= 0
  {
  }

  /** Division of naturals. */
  function Div(i: nat, n: nat): (q: nat)
    requires n >= 1
    ensures q == i / n
  {
    DivIsNatural(i, n);
    i / n
  }

  /** The remainder, with its bound. */
  function Mod(i: nat, n: nat): (r: nat)
    requires n >= 1
    ensures r == i % n && r < n
  {
    i % n
  }

  /** A value, or the next multiple above it. */
  function Aligned(value: nat, alignment: nat): nat
    requires alignment > 0
  {
    if value % alignment != 0 then (value / alignment) * alignment + alignment else value
  }

  lemma AlignedIsMultiple(value: nat, alignment: nat)
    requires alignment > 0
    ensures value <= Aligned(value, alignment) < value + alignment
    ensures Aligned(value, alignment) == Aligned(value, alignment) / alignment * alignment
  {
    var q := value / alignment;
    assert value == q * alignment + value % alignment;
    if value % alignment != 0 {
      assert alignment * (q + 1) == q * alignment + alignment;
      DivIs(q * alignment + alignment, alignment, q + 1, 0);
    }
  }
}
