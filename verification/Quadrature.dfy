/**
 The parallel quadrature of Lab 9 (and of Lab 6, which computes the same pieces in processes)
 over exact reals: the integral of 4 / (x * x + 1) over [0, 1], cut into k pieces, each summed
 by a loop of steps of width dx.
 */
module Quadrature {

  function F(x: real): real {
    4.0 / (x * x + 1.0)
  }

  /** The integrand, without a quotient. */
  lemma FInverts(x: real)
    ensures F(x) * (x * x + 1.0) == 4.0
  {
    assert x * x >= 0.0;
  }

  lemma Cancel(p: real, q: real, w: real)
    requires w > 0.0 && p * w <= q * w
    ensures p <= q
  {
    assert (q - p) * w == q * w - p * w;
  }

  /** F falls on the non-negative reals and stays between 0 and 4. */
  lemma FDecreasing(x: real, y: real)
    requires 0.0 <= x <= y
    ensures 0.0 < F(y) <= F(x) <= 4.0
  {
    Square(x, y);
    Quotient(x * x + 1.0, y * y + 1.0);
    Quotient(1.0, x * x + 1.0);
  }

  lemma Square(x: real, y: real)
    requires 0.0 <= x <= y
    ensures 0.0 <= x * x <= y * y
  {
    assert x * x <= x * y;
    assert x * y <= y * y;
  }

  lemma Quotient(p: real, q: real)
    requires 0.0 < p <= q
    ensures 0.0 < 4.0 / q <= 4.0 / p
  {
    var d := 4.0 / q;
    assert d * q == 4.0;
    assert d * p <= d * q;
    assert 4.0 / p - d == (4.0 - d * p) / p;
  }

  /** The area of a rectangle. */
  function Area(height: real, width: real): real {
    height * width
  }

  // ------------------------------------------------------------ the loop

  lemma CancelWidth(p: real, q: real, w: real)
    requires w > 0.0
    ensures p * w == q * w ==> p == q
    ensures p * w < q * w ==> p < q
  {
    assert (p - q) * w == p * w - q * w;
  }

  /** Steps left before x reaches b. */
  function StepsLeft(x: real, b: real, dx: real): nat
    requires dx > 0.0
  {
    if x < b then ((b - x) / dx).Floor + 1 else 0
  }

  lemma StepsLeftDecreases(x: real, b: real, dx: real)
    requires dx > 0.0 && x < b
    ensures StepsLeft(x + dx, b, dx) < StepsLeft(x, b, dx)
  {
    var q, r := (b - x) / dx, (b - (x + dx)) / dx;
    assert q * dx == b - x && r * dx == b - x - dx;
    CancelWidth(q - 1.0, r, dx);
    CancelWidth(0.0, q, dx);
  }

  /** What the loop adds up from x on. */
  function StepSum(f: real -> real, x: real, b: real, dx: real): real
    requires dx > 0.0
    decreases StepsLeft(x, b, dx)
  {
    if x < b then
      StepsLeftDecreases(x, b, dx);
      Area(f(x), dx) + StepSum(f, x + dx, b, dx)
    else 0.0
  }

  method CalculateIntegral(a: real, b: real, dx: real) returns (sum: real)
    requires dx > 0.0
    ensures sum == StepSum(F, a, b, dx)
  {
    hide F;
    sum := 0.0;
    var x := a;
    while x < b
      invariant sum + StepSum(F, x, b, dx) == StepSum(F, a, b, dx)
      decreases StepsLeft(x, b, dx)
    {
      StepsLeftDecreases(x, b, dx);
      sum := sum + F(x) * dx;
      x := x + dx;
    }
  }
}
