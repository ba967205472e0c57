/** Integer widths, minima and maxima, and facts about products and quotients that the solver
    does not find by itself. */
module Arithmetic {
  const U16: nat := 0x1_0000
  const U32: nat := 0x1_0000_0000
  const U64: nat := 0x1_0000_0000_0000_0000

  function Min(a: int, b: int): int {
    if a <= b then a else b
  }

  function Max(a: int, b: int): int {
    if a >= b then a else b
  }

  function MinReal(a: real, b: real): real {
    if a <= b then a else b
  }

  function MaxReal(a: real, b: real): real {
    if a >= b then a else b
  }

  lemma Distribute(x: int, y: int, d: int)
    ensures (x - y) * d == x * d - y * d
  {
  }

  lemma NegativeProduct(x: int, d: nat)
    ensures x < 0 ==> x * d <= -(d as int)
    decreases -x
  {
    if x < -1 {
      NegativeProduct(x + 1, d);
      Distribute(x + 1, 1, d);
    }
  }

  lemma DivMonotone(a: nat, b: nat, d: nat)
    requires d > 0 && a <= b
    ensures a / d <= b / d
  {
    NegativeProduct(b / d - a / d, d);
    Distribute(b / d, a / d, d);
    assert a == a / d * d + a % d && b == b / d * d + b % d;
  }

  /** Comparing integers by comparing their multiples, up to less than one multiple. */
  lemma CompareMultiples(a: int, b: int, d: nat)
    requires d > 0
    ensures a * d > b * d - d ==> a >= b
    ensures a * d > b * d ==> a > b
  {
    NegativeProduct(a - b, d);
    Distribute(a, b, d);
  }
}
