/** Scores in the unit interval and the fractions they are made of. Real
    division is where the solver needs help, so the bounds of a fraction are
    proved once here. */
module Ratios {

  predicate InUnit(x: real) { 0.0 <= x <= 1.0 }

  function Min(a: real, b: real): (r: real)
    ensures r <= a && r <= b && (r == a || r == b)
  {
    if a <= b then a else b
  }

  function Max(a: real, b: real): (r: real)
    ensures r >= a && r >= b && (r == a || r == b)
  {
    if a >= b then a else b
  }

  /** `max(0, min(1, x))`. */
  function Clamp(x: real): (r: real)
    ensures InUnit(r)
    ensures InUnit(x) ==> r == x
    ensures x < 0.0 ==> r == 0.0
    ensures x > 1.0 ==> r == 1.0
  {
    Max(0.0, Min(1.0, x))
  }

  /** A part over a whole is in the unit interval, and is one exactly when
      the part is the whole. */
  lemma DivBounds(a: real, b: real)
    requires 0.0 <= a <= b && b > 0.0
    ensures 0.0 <= a / b <= 1.0
    ensures a / b == 1.0 <==> a == b
    ensures a < b ==> a / b < 1.0
  {
    var q := a / b;
    assert q * b == a;
    assert (q - 1.0) * b == a - b && (1.0 - q) * b == b - a && (0.0 - q) * b == 0.0 - a;
    MulPositive(q - 1.0, b);
    MulPositive(0.0 - q, b);
    MulPositive(1.0 - q, b);
    if a == b {
      DivSelf(b);
    }
  }

  lemma DivSelf(b: real)
    requires b > 0.0
    ensures b / b == 1.0
  {
  }

  /** Dividing by a positive number keeps the order. */
  lemma DivMonotone(a: real, c: real, b: real)
    requires a <= c && b > 0.0
    ensures a / b <= c / b
  {
    assert (a / b) * b == a && (c / b) * b == c;
    MulPositive(a / b - c / b, b);
  }

  /** `n / d` for counts, as a real. */
  function Ratio(n: nat, d: nat): (r: real)
    requires n <= d && d > 0
    ensures InUnit(r)
    ensures r == 1.0 <==> n == d
    ensures r == 0.0 <==> n == 0
  {
    DivBounds(n as real, d as real);
    DivZero(n as real, d as real);
    (n as real) / (d as real)
  }

  lemma MulPositive(x: real, y: real)
    ensures x > 0.0 && y > 0.0 ==> x * y > 0.0
  {
  }

  lemma DivZero(a: real, b: real)
    requires a >= 0.0 && b > 0.0
    ensures a / b == 0.0 <==> a == 0.0
  {
    var q := a / b;
    assert q * b == a;
    MulPositive(0.0 - q, b);
  }
}
