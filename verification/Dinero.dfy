/** Money: exact amounts, rounded to cents only where the services call for it. */
module Dinero {

  /** The nearest whole number of cents, halves away from zero. */
  function Centimos(x: real): int {
    if x >= 0.0 then (x * 100.0 + 0.5).Floor else -(0.5 - x * 100.0).Floor
  }

  /** Two decimals, as the decimal library rounds by default. */
  function Redondear2(x: real): real {
    Centimos(x) as real / 100.0
  }

  predicate EnCentimos(x: real) {
    Redondear2(x) == x
  }

  const MEDIO_CENTIMO: real := 0.005

  lemma {:induction false} RedondearCerca(x: real)
    ensures -MEDIO_CENTIMO <= Redondear2(x) - x <= MEDIO_CENTIMO
  {
  }

  lemma {:induction false} RedondearMonotono(x: real, y: real)
    requires x <= y
    ensures Redondear2(x) <= Redondear2(y)
  {
    assert Centimos(x) <= Centimos(y);
  }

  lemma {:induction false} RedondearEntero(n: int)
    ensures Redondear2(n as real / 100.0) == n as real / 100.0
  {
    var x := n as real / 100.0;
    assert x * 100.0 == n as real;
    if x >= 0.0 {
      assert (n as real + 0.5).Floor == n;
    } else {
      assert (0.5 - n as real).Floor == -n;
    }
  }

  /** Rounding twice is rounding once. */
  lemma {:induction false} RedondearIdempotente(x: real)
    ensures EnCentimos(Redondear2(x))
  {
    RedondearEntero(Centimos(x));
  }
}
