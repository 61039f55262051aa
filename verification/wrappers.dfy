/** Values shared by the other modules: optional values and real arithmetic. */
module Wrappers {
  datatype Option<+T> = None | Some(value: T)

  function Abs(x: real): real {
    if x >= 0.0 then x else -x
  }

  function Max(x: real, y: real): real {
    if x >= y then x else y
  }

  function Min(x: real, y: real): real {
    if x <= y then x else y
  }

  function MaxInt(x: int, y: int): int {
    if x >= y then x else y
  }

  function MinInt(x: int, y: int): int {
    if x <= y then x else y
  }

  function Clamp(x: real, low: real, high: real): real {
    Max(low, Min(high, x))
  }

  lemma MulMono(x: real, y: real, z: real)
    requires x <= y && 0.0 <= z
    ensures x * z <= y * z
  {
    assert (y - x) * z >= 0.0;
  }

  lemma MulStrict(x: real, y: real, z: real)
    requires x < y && 0.0 < z
    ensures x * z < y * z
  {
    assert (y - x) * z > 0.0;
  }

  lemma DivMul(x: real, y: real)
    requires y != 0.0
    ensures x / y * y == x
  {
  }

  lemma ScaledOrder(x: real, y: real, factor: real)
    requires factor > 0.0
    ensures x <= y <==> x * factor <= y * factor
  {
    if x <= y { MulMono(x, y, factor); } else { MulStrict(y, x, factor); }
  }

  /** A quotient compares with a bound as the dividend compares with the scaled bound. */
  lemma Quotient(bound: real, total: real, n: real)
    requires n > 0.0
    ensures bound <= total / n <==> bound * n <= total
    ensures total / n <= bound <==> total <= bound * n
  {
    DivMul(total, n);
    ScaledOrder(bound, total / n, n);
    ScaledOrder(total / n, bound, n);
  }
}
