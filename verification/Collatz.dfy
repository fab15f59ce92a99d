/** The Collatz recorder of Lab 2. */
module Collatz {

  /** The remainder of C, which takes the sign of the dividend. */
  function CRemainder(x: int, y: int): int
    requires y > 0
  {
    if x >= 0 then x % y else -((-x) % y)
  }

  /** The quotient of C, which truncates towards zero. */
  function CQuotient(x: int, y: int): int
    requires y > 0
  {
    if x >= 0 then x / y else -((-x) / y)
  }

  function Conjecture(input: int): int {
    if CRemainder(input, 2) == 0 then CQuotient(input, 2) else input * 3 + 1
  }

  /** The trajectory of x. */
  function Trajectory(x: int, i: nat): int {
    if i == 0 then x else Conjecture(Trajectory(x, i - 1))
  }

  method TestConvergence(input: int, maxIter: int, steps: array<int>) returns (r: int)
    requires steps.Length > 0 && maxIter <= steps.Length
    modifies steps
    ensures r >= 0 && (input <= 0 ==> r == 0)
    ensures r > 0 ==> (r == 1 || r <= maxIter) && r <= steps.Length && Trajectory(input, r - 1) == 1
    ensures r > 0 ==> forall j :: 0 <= j < r - 1 ==> Trajectory(input, j) != 1
    ensures r == 0 ==> forall j: nat :: j == 0 || j < maxIter ==> Trajectory(input, j) != 1
    ensures forall j: nat :: j < (if r > 0 then r else if maxIter > 1 then maxIter else 1) ==>
      steps[j] == Trajectory(input, j)
  {
    hide Conjecture;
    var i := 0;
    steps[i] := input;
    while steps[i] != 1 && i < maxIter - 1
      invariant 0 <= i < steps.Length && (i == 0 || i < maxIter)
      invariant forall j: nat :: j <= i ==> steps[j] == Trajectory(input, j)
      invariant forall j: nat :: j < i ==> Trajectory(input, j) != 1
      decreases maxIter - i
    {
      steps[i + 1] := Conjecture(steps[i]);
      i := i + 1;
    }
    if steps[i] != 1 {
      return 0;
    }
    if input <= 0 {
      NeverFromBelow(input, i);
    }
    return i + 1;
  }

  /** From zero or below the trajectory never gets above zero. */
  lemma {:induction false} NeverFromBelow(x: int, i: nat)
    requires x <= 0
    ensures Trajectory(x, i) <= 0
  {
    if i > 0 {
      NeverFromBelow(x, i - 1);
    }
  }

  lemma {:induction false} StaysPositive(x: int, i: nat)
    requires x >= 1
    ensures Trajectory(x, i) >= 1
  {
    if i > 0 {
      StaysPositive(x, i - 1);
    }
  }

  function Power(b: nat, e: nat): nat {
    if e == 0 then 1 else b * Power(b, e - 1)
  }

  /** Half and remainder of C belong together; the remainder has the sign of the dividend. */
  lemma Truncates(x: int)
    ensures x == 2 * CQuotient(x, 2) + CRemainder(x, 2) && -2 < CRemainder(x, 2) < 2
    ensures (CRemainder(x, 2) > 0 ==> x > 0) && (CRemainder(x, 2) < 0 ==> x < 0)
  {
  }

  /** Negative values are halved and tripled like the others. */
  lemma ConjectureCases(y: int)
    ensures y % 2 == 0 ==> 2 * Conjecture(y) == y
    ensures y % 2 == 1 ==> Conjecture(y) == 3 * y + 1 && Conjecture(y) % 2 == 0
  {
    hide CRemainder;
    hide CQuotient;
    Truncates(y);
  }

  /** Place i was not reached by tripling. */
  predicate Rested(x: int, i: nat) {
    i == 0 || Trajectory(x, i - 1) % 2 == 0
  }

  lemma Halved(p: nat, q: nat, w: int, v: int, bound: int)
    requires p * (v + 1) <= q * bound && 2 * w == v && w >= 1 && bound >= 0
    ensures p * (w + 1) <= q * bound && 2 * p * (w + 1) <= 3 * q * bound
  {
    assert p * (w + 1) <= p * (v + 1);
    assert p * (2 * (w + 1)) <= p * (3 * (v + 1));
  }

  lemma TripledAndHalved(p: nat, q: nat, w: int, u: int, bound: int)
    requires p * (u + 1) <= q * bound && 2 * w == 3 * u + 1
    ensures 2 * p * (w + 1) <= 3 * q * bound
  {
    assert p * (2 * (w + 1)) == p * (3 * (u + 1));
  }

  /** Away from the peaks a value grows by at most 3/2 in two steps, counted from -1. */
  lemma {:induction false} RestedBound(x: int, i: nat)
    requires x >= 1 && Rested(x, i)
    ensures Power(2, i / 2) * (Trajectory(x, i) + 1) <= Power(3, i / 2) * (x + 1)
  {
    hide Conjecture;
    if i > 0 {
      var v, w := Trajectory(x, i - 1), Trajectory(x, i);
      StaysPositive(x, i - 1);
      StaysPositive(x, i);
      ConjectureCases(v);
      if Rested(x, i - 1) {
        RestedBound(x, i - 1);
        Halved(Power(2, (i - 1) / 2), Power(3, (i - 1) / 2), w, v, x + 1);
        assert i / 2 == if i % 2 == 1 then (i - 1) / 2 else (i - 1) / 2 + 1;
      } else {
        var u := Trajectory(x, i - 2);
        StaysPositive(x, i - 2);
        ConjectureCases(u);
        RestedBeforeTripling(x, i - 2);
        RestedBound(x, i - 2);
        assert (i - 2) / 2 == i / 2 - 1;
        TripledAndHalved(Power(2, i / 2 - 1), Power(3, i / 2 - 1), w, u, x + 1);
      }
    }
  }

  lemma RestedBeforeTripling(x: int, i: nat)
    requires x >= 1 && Trajectory(x, i) % 2 == 1
    ensures Rested(x, i)
  {
    if i > 0 {
      StaysPositive(x, i - 1);
      ConjectureCases(Trajectory(x, i - 1));
    }
  }

  lemma Tripled(p: nat, q: nat, w: int, v: int, bound: int)
    requires p * (v + 1) <= q * bound && w == 3 * v + 1 && v >= 1
    ensures p * (w + 1) <= 3 * q * bound && 2 * p * (w + 1) <= 9 * q * bound
  {
    assert p * (w + 1) <= p * (3 * (v + 1));
  }

  /** Every value recorded is bounded. */
  lemma GrowthBound(x: int, i: nat)
    requires x >= 1
    ensures Power(2, i / 2) * (Trajectory(x, i) + 1) <= Power(3, i / 2 + 1) * (x + 1)
  {
    hide Conjecture;
    StaysPositive(x, i);
    if Rested(x, i) {
      RestedBound(x, i);
      assert Power(3, i / 2) * (x + 1) <= 3 * Power(3, i / 2) * (x + 1);
    } else {
      var v := Trajectory(x, i - 1);
      StaysPositive(x, i - 1);
      ConjectureCases(v);
      RestedBeforeTripling(x, i - 1);
      RestedBound(x, i - 1);
      Tripled(Power(2, (i - 1) / 2), Power(3, (i - 1) / 2), Trajectory(x, i), v, x + 1);
      assert i / 2 == if i % 2 == 1 then (i - 1) / 2 else (i - 1) / 2 + 1;
    }
  }

  lemma TwiceBelowThrice(p: nat, q: nat, r: nat, t: nat)
    requires p * q <= r * t
    ensures p * (2 * q) <= (3 * r) * t
  {
    assert p * (2 * q) == 2 * (p * q);
    assert (3 * r) * t == 3 * (r * t);
  }

  lemma {:induction false} RatioGrows(a: nat, b: nat)
    requires a <= b
    ensures Power(3, a) * Power(2, b) <= Power(3, b) * Power(2, a)
    decreases b - a
  {
    if a < b {
      RatioGrows(a, b - 1);
      TwiceBelowThrice(Power(3, a), Power(2, b - 1), Power(3, b - 1), Power(2, a));
    }
  }

  lemma {:induction false} PowerPositive(b: nat, e: nat)
    requires b > 0
    ensures Power(b, e) > 0
  {
    if e > 0 {
      PowerPositive(b, e - 1);
    }
  }

  lemma Compare(p: nat, q: nat, r: nat, t: nat, y: int, bound: int, limit: int)
    requires p > 0 && r > 0 && bound >= 0
    requires p * y <= q * bound && q * r <= t * p && t * bound <= limit * r
    ensures y <= limit
  {
    assert (p * r) * y == r * (p * y) <= r * (q * bound) == bound * (q * r);
    assert bound * (q * r) <= bound * (t * p) == p * (t * bound) <= p * (limit * r) == (p * r) * limit;
    assert p * r > 0;
  }

  /** A range of starts and iterations in which no C int overflows (limit 2 to the 31). */
  lemma NoOverflow(x: int, n: nat, i: nat, limit: int)
    requires x >= 1 && i <= n && Power(3, n / 2 + 1) * (x + 1) <= limit * Power(2, n / 2)
    ensures 1 <= Trajectory(x, i) < limit
  {
    hide Power;
    hide Trajectory;
    StaysPositive(x, i);
    GrowthBound(x, i);
    RatioGrows(i / 2, n / 2);
    PowerPositive(2, i / 2);
    PowerPositive(2, n / 2);
    PowerNext(i / 2, n / 2);
    Compare(Power(2, i / 2), Power(3, i / 2 + 1), Power(2, n / 2), Power(3, n / 2 + 1),
            Trajectory(x, i) + 1, x + 1, limit);
  }

  /** What holds of two powers holds of the next. */
  lemma PowerNext(a: nat, b: nat)
    requires Power(3, a) * Power(2, b) <= Power(3, b) * Power(2, a)
    ensures Power(3, a + 1) * Power(2, b) <= Power(3, b + 1) * Power(2, a)
  {
    Triple(Power(3, a), Power(2, b), Power(3, b), Power(2, a));
    assert Power(3, a + 1) == 3 * Power(3, a) && Power(3, b + 1) == 3 * Power(3, b);
  }

  lemma Triple(p: nat, q: nat, r: nat, t: nat)
    requires p * q <= r * t
    ensures (3 * p) * q <= (3 * r) * t
  {
    assert (3 * p) * q == 3 * (p * q) && (3 * r) * t == 3 * (r * t);
  }
}
