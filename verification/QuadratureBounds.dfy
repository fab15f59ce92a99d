/** How far the program's total can be from the integral, without ever speaking of limits:
    compare it with the lower and upper sums of every finite partition. The program's integrand
    matters only in that it falls and is not negative. */
module QuadratureBounds {
  import opened Quadrature

  ghost predicate Falling(f: real -> real) {
    forall x, y :: 0.0 <= x <= y ==> 0.0 <= f(y) <= f(x)
  }

  lemma FFalls()
    ensures Falling(F) && F(0.0) == 4.0
  {
    forall x, y | 0.0 <= x <= y
      ensures 0.0 <= F(y) <= F(x)
    {
      FDecreasing(x, y);
    }
  }

  /** Cut points in order, none negative. */
  predicate Cuts(p: seq<real>) {
    p != [] && 0.0 <= p[0] && forall i :: 0 < i < |p| ==> p[i - 1] <= p[i]
  }

  function Last(p: seq<real>): real
    requires p != []
  {
    p[|p| - 1]
  }

  predicate PartitionOf(p: seq<real>, a: real, b: real) {
    Cuts(p) && p[0] == a && Last(p) == b
  }

  /** F falls, so its largest value between two cuts is the one on the left ... */
  function Upper(f: real -> real, p: seq<real>): real {
    if |p| < 2 then 0.0 else Area(f(p[0]), p[1] - p[0]) + Upper(f, p[1..])
  }

  /** ... and its smallest the one on the right. */
  function Lower(f: real -> real, p: seq<real>): real {
    if |p| < 2 then 0.0 else Area(f(p[1]), p[1] - p[0]) + Lower(f, p[1..])
  }

  lemma TallerIsLarger(h: real, h': real, w: real)
    requires h <= h' && 0.0 <= w
    ensures Area(h, w) <= Area(h', w)
  {
  }

  lemma WiderIsLarger(h: real, w: real, w': real)
    requires 0.0 <= h && w <= w'
    ensures Area(h, w) <= Area(h, w')
  {
  }

  lemma NoHeightNoArea(w: real)
    ensures Area(0.0, w) == 0.0
  {
  }

  lemma {:induction false} UpperNonNegative(f: real -> real, q: seq<real>)
    requires Falling(f) && Cuts(q)
    ensures Upper(f, q) >= 0.0
  {
    hide Area;
    if |q| >= 2 {
      TailCuts(q);
      TallerIsLarger(0.0, f(q[0]), q[1] - q[0]);
      NoHeightNoArea(q[1] - q[0]);
      UpperNonNegative(f, q[1..]);
    }
  }

  lemma TailCuts(q: seq<real>)
    requires Cuts(q) && |q| >= 2
    ensures Cuts(q[1..]) && q[0] <= q[1] && Last(q[1..]) == Last(q)
  {
    assert q[1 - 1] <= q[1];
  }

  lemma {:induction false} LastLargest(q: seq<real>)
    requires Cuts(q)
    ensures q[0] <= Last(q)
  {
    if |q| >= 2 {
      TailCuts(q);
      LastLargest(q[1..]);
    }
  }

  /** Any lower sum is at most any upper sum over at least as much. */
  lemma {:induction false} LowerBelowUpper(f: real -> real, p: seq<real>, q: seq<real>)
    requires Falling(f) && Cuts(p) && Cuts(q) && p[0] == q[0] && Last(p) <= Last(q)
    ensures Lower(f, p) <= Upper(f, q)
    decreases |p| + |q|
  {
    hide Area;
    if |p| == 1 {
      UpperNonNegative(f, q);
    } else {
      TailCuts(p);
      LastLargest(p[1..]);
      if |q| == 1 {
        LowerDegenerate(f, p);
      } else {
        TailCuts(q);
        if p[1] <= q[1] {
          CutUpper(f, q, p[1]);
          LowerBelowUpper(f, p[1..], [p[1]] + q[1..]);
          TallerIsLarger(f(p[1]), f(q[0]), p[1] - p[0]);
        } else {
          CutLower(f, p, q[1]);
          LowerBelowUpper(f, [q[1]] + p[1..], q[1..]);
          TallerIsLarger(f(p[1]), f(q[0]), q[1] - p[0]);
        }
      }
    }
  }

  lemma {:induction false} LowerDegenerate(f: real -> real, p: seq<real>)
    requires Cuts(p) && p[0] == Last(p)
    ensures Lower(f, p) == 0.0
  {
    if |p| >= 2 {
      TailCuts(p);
      LastLargest(p[1..]);
      LowerDegenerate(f, p[1..]);
    }
  }

  lemma CutFirst(q: seq<real>, c: real)
    requires Cuts(q) && |q| >= 2 && q[0] <= c <= q[1]
    ensures Cuts([c] + q[1..]) && Last([c] + q[1..]) == Last(q) && ([c] + q[1..])[1..] == q[1..]
  {
    var r := [c] + q[1..];
    forall i | 0 < i < |r|
      ensures r[i - 1] <= r[i]
    {
      assert i > 1 ==> q[i - 1] <= q[i];
    }
  }

  lemma Split(h: real, x: real, y: real, z: real)
    ensures Area(h, y - x) + Area(h, z - y) == Area(h, z - x)
  {
  }

  /** Putting a cut in front adds one rectangle. */
  lemma OneMoreRectangle(f: real -> real, x: real, p: seq<real>)
    requires p != []
    ensures Upper(f, [x] + p) == Area(f(x), p[0] - x) + Upper(f, p)
    ensures Lower(f, [x] + p) == Area(f(p[0]), p[0] - x) + Lower(f, p)
  {
    hide Area;
    assert ([x] + p)[1..] == p;
  }

  /** Cutting the first interval at c can only lower an upper sum. */
  lemma CutUpper(f: real -> real, q: seq<real>, c: real)
    requires Falling(f) && Cuts(q) && |q| >= 2 && q[0] <= c <= q[1]
    ensures Area(f(q[0]), c - q[0]) + Upper(f, [c] + q[1..]) <= Upper(f, q)
  {
    hide Area;
    hide Upper;
    CutFirst(q, c);
    assert [q[0]] + q[1..] == q;
    OneMoreRectangle(f, q[0], q[1..]);
    OneMoreRectangle(f, c, q[1..]);
    TallerIsLarger(f(c), f(q[0]), q[1] - c);
    Split(f(q[0]), q[0], c, q[1]);
  }

  /** Cutting the first interval at c splits its term of a lower sum. */
  lemma CutLower(f: real -> real, p: seq<real>, c: real)
    requires Cuts(p) && |p| >= 2 && p[0] <= c <= p[1]
    ensures Lower(f, p) == Area(f(p[1]), c - p[0]) + Lower(f, [c] + p[1..])
  {
    hide Area;
    hide Lower;
    CutFirst(p, c);
    assert [p[0]] + p[1..] == p;
    OneMoreRectangle(f, p[0], p[1..]);
    OneMoreRectangle(f, c, p[1..]);
    Split(f(p[1]), p[0], c, p[1]);
  }

  // ------------------------------------------------------------ one piece

  /** The points the loop visits, and the end of the piece. */
  function Nodes(x: real, b: real, dx: real): (p: seq<real>)
    requires dx > 0.0
    ensures p != []
    decreases StepsLeft(x, b, dx)
  {
    if x < b then
      StepsLeftDecreases(x, b, dx);
      [x] + Nodes(x + dx, b, dx)
    else [b]
  }

  lemma LastStep(f: real -> real, x: real, b: real, dx: real)
    requires dx > 0.0 && 0.0 <= x < b <= x + dx
    ensures Nodes(x, b, dx) == [x, b] && StepSum(f, x, b, dx) == Area(f(x), dx)
    ensures Upper(f, [x, b]) == Area(f(x), b - x) && Lower(f, [x, b]) == Area(f(b), b - x)
  {
    hide Area;
    assert Nodes(x + dx, b, dx) == [b];
    assert StepSum(f, x + dx, b, dx) == 0.0;
    assert [x, b][1..] == [b];
  }

  lemma OneMoreCut(x: real, p: seq<real>)
    requires Cuts(p) && 0.0 <= x <= p[0]
    ensures Cuts([x] + p) && Last([x] + p) == Last(p) && ([x] + p)[1..] == p
  {
    var q := [x] + p;
    forall i | 0 < i < |q|
      ensures q[i - 1] <= q[i]
    {
      assert i > 1 ==> p[i - 2] <= p[i - 1];
    }
  }

  lemma LastStepBounds(f: real -> real, x: real, b: real, dx: real)
    requires Falling(f) && dx > 0.0 && 0.0 <= x < b <= x + dx
    ensures PartitionOf(Nodes(x, b, dx), x, b)
    ensures Upper(f, Nodes(x, b, dx)) <= StepSum(f, x, b, dx) <= Lower(f, Nodes(x, b, dx)) + Area(f(x), dx)
  {
    LastStep(f, x, b, dx);
    hide Area;
    hide StepsLeft;
    hide Nodes;
    hide StepSum;
    hide Upper;
    hide Lower;
    WiderIsLarger(f(x), b - x, dx);
    TallerIsLarger(0.0, f(b), b - x);
    NoHeightNoArea(b - x);
  }

  lemma {:induction false} PieceBounds(f: real -> real, x: real, b: real, dx: real)
    requires Falling(f) && dx > 0.0 && 0.0 <= x < b
    ensures PartitionOf(Nodes(x, b, dx), x, b)
    ensures Upper(f, Nodes(x, b, dx)) <= StepSum(f, x, b, dx) <= Lower(f, Nodes(x, b, dx)) + Area(f(x), dx)
    decreases StepsLeft(x, b, dx)
  {
    hide Area;
    hide StepsLeft;
    hide Upper;
    hide Lower;
    hide Falling;
    StepsLeftDecreases(x, b, dx);
    if x + dx < b {
      var p := Nodes(x + dx, b, dx);
      PieceBounds(f, x + dx, b, dx);
      OneMoreCut(x, p);
      OneMoreRectangle(f, x, p);
      assert p[0] - x == dx;
    } else {
      LastStepBounds(f, x, b, dx);
    }
  }

  // ---------------------------------------------------------- all pieces

  /** The left end of piece i of k; the right end of piece i - 1. */
  function Edge(i: nat, k: nat): real
    requires k > 0
  {
    i as real * (1.0 / k as real)
  }

  lemma EdgesIncrease(i: nat, k: nat)
    requires k > 0
    ensures 0.0 <= Edge(i, k) < Edge(i + 1, k) && Edge(0, k) == 0.0 && Edge(k, k) == 1.0
  {
    var w := 1.0 / k as real;
    assert w * k as real == 1.0 && w > 0.0;
    assert Edge(i + 1, k) == Edge(i, k) + w;
    assert Edge(i, k) >= 0.0;
  }

  /** The total width of the rectangles that n pieces may have in excess. */
  function Excess(n: nat, dx: real): real {
    n as real * dx
  }

  lemma ExcessGrows(n: nat, dx: real)
    ensures Excess(0, dx) == 0.0 && Excess(n + 1, dx) == Excess(n, dx) + dx
  {
  }

  lemma WidthsAdd(h: real, v: real, w: real)
    ensures Area(h, 0.0) == 0.0 && Area(h, v + w) == Area(h, v) + Area(h, w)
  {
  }

  /** Lab 6 divides where Lab 9 multiplies; over the reals that is the same. */
  lemma EdgeIsQuotient(i: nat, k: nat)
    requires k > 0
    ensures Edge(i, k) == i as real / k as real
  {
    assert (1.0 / k as real) * k as real == 1.0;
    assert Edge(i, k) * k as real == i as real;
  }

  function Piece(f: real -> real, i: nat, k: nat, dx: real): real
    requires k > 0 && dx > 0.0
  {
    StepSum(f, Edge(i, k), Edge(i + 1, k), dx)
  }

  /** The sum of the first n pieces of k. */
  function Pieces(f: real -> real, n: nat, k: nat, dx: real): real
    requires k > 0 && dx > 0.0
  {
    if n == 0 then 0.0 else Pieces(f, n - 1, k, dx) + Piece(f, n - 1, k, dx)
  }

  /** What the program prints. */
  function Total(k: nat, dx: real): real
    requires k > 0 && dx > 0.0
  {
    Pieces(F, k, k, dx)
  }

  lemma {:induction false} Joining(f: real -> real, a: seq<real>, b: seq<real>)
    requires Cuts(a) && Cuts(b) && Last(a) == b[0]
    ensures PartitionOf(a + b[1..], a[0], Last(b))
    ensures Upper(f, a + b[1..]) == Upper(f, a) + Upper(f, b) && Lower(f, a + b[1..]) == Lower(f, a) + Lower(f, b)
  {
    hide Area;
    if |a| == 1 {
      assert a + b[1..] == b;
    } else {
      TailCuts(a);
      Joining(f, a[1..], b);
      var c := a + b[1..];
      assert c[1..] == a[1..] + b[1..];
      forall i | 0 < i < |c|
        ensures c[i - 1] <= c[i]
      {
        assert i > 1 ==> c[1..][i - 2] <= c[1..][i - 1];
      }
    }
  }

  /** The nodes of the first n pieces, put together. */
  function AllNodes(n: nat, k: nat, dx: real): (p: seq<real>)
    requires k > 0 && dx > 0.0
    ensures p != []
  {
    if n == 0 then [0.0]
    else AllNodes(n - 1, k, dx) + Nodes(Edge(n - 1, k), Edge(n, k), dx)[1..]
  }

  lemma {:induction false} PiecesBounds(f: real -> real, n: nat, k: nat, dx: real)
    requires Falling(f) && k > 0 && dx > 0.0
    ensures PartitionOf(AllNodes(n, k, dx), 0.0, Edge(n, k))
    ensures Upper(f, AllNodes(n, k, dx)) <= Pieces(f, n, k, dx)
    ensures Pieces(f, n, k, dx) <= Lower(f, AllNodes(n, k, dx)) + Area(f(0.0), Excess(n, dx))
  {
    hide Area;
    hide Excess;
    hide Edge;
    if n == 0 {
      EdgesIncrease(0, k);
      ExcessGrows(0, dx);
      WidthsAdd(f(0.0), 0.0, 0.0);
    } else {
      PiecesBounds(f, n - 1, k, dx);
      EdgesIncrease(n - 1, k);
      PieceBounds(f, Edge(n - 1, k), Edge(n, k), dx);
      Joining(f, AllNodes(n - 1, k, dx), Nodes(Edge(n - 1, k), Edge(n, k), dx));
      TallerIsLarger(f(Edge(n - 1, k)), f(0.0), dx);
      ExcessGrows(n - 1, dx);
      WidthsAdd(f(0.0), Excess(n - 1, dx), dx);
    }
  }

  lemma AllPiecesBounds(k: nat, dx: real)
    requires k > 0 && dx > 0.0
    ensures PartitionOf(AllNodes(k, k, dx), 0.0, 1.0)
    ensures Upper(F, AllNodes(k, k, dx)) <= Total(k, dx) <= Lower(F, AllNodes(k, k, dx)) + 4.0 * (k as real * dx)
  {
    hide F;
    FFalls();
    PiecesBounds(F, k, k, dx);
    EdgesIncrease(0, k);
  }

  /** For every partition of [0, 1] the total lies between its lower sum and its upper sum plus
      four rectangle widths per thread. */
  lemma TotalBetweenSums(k: nat, dx: real, p: seq<real>)
    requires k > 0 && dx > 0.0 && PartitionOf(p, 0.0, 1.0)
    ensures Lower(F, p) <= Total(k, dx) <= Upper(F, p) + 4.0 * (k as real * dx)
  {
    hide F;
    FFalls();
    AllPiecesBounds(k, dx);
    LowerBelowUpper(F, p, AllNodes(k, k, dx));
    LowerBelowUpper(F, AllNodes(k, k, dx), p);
  }

  /** Any two runs agree up to their step widths. */
  lemma TwoRunsAgree(k: nat, dx: real, k': nat, dx': real)
    requires k > 0 && dx > 0.0 && k' > 0 && dx' > 0.0
    ensures -4.0 * (k' as real * dx') <= Total(k, dx) - Total(k', dx') <= 4.0 * (k as real * dx)
  {
    hide F;
    AllPiecesBounds(k, dx);
    AllPiecesBounds(k', dx');
    TotalBetweenSums(k, dx, AllNodes(k', k', dx'));
    TotalBetweenSums(k', dx', AllNodes(k, k, dx));
  }

  /** No upper sum of F over [0, 1] is below the number and no lower sum above it. */
  ghost predicate IsIntegral(v: real) {
    forall p :: PartitionOf(p, 0.0, 1.0) ==> Lower(F, p) <= v <= Upper(F, p)
  }

  /** The total never falls short of the integral and exceeds it by at most 4 k dx. */
  lemma TotalNearIntegral(k: nat, dx: real, v: real)
    requires k > 0 && dx > 0.0 && IsIntegral(v)
    ensures v <= Total(k, dx) <= v + 4.0 * (k as real * dx)
  {
    hide F;
    AllPiecesBounds(k, dx);
    assert PartitionOf(AllNodes(k, k, dx), 0.0, 1.0);
  }

  /** There is no more than one such number: small steps pin it down. */
  lemma IntegralUnique(v: real, w: real)
    requires IsIntegral(v) && IsIntegral(w)
    ensures v == w
  {
    hide F;
    if v != w {
      var gap := if v < w then w - v else v - w;
      TotalNearIntegral(1, gap / 8.0, v);
      TotalNearIntegral(1, gap / 8.0, w);
    }
  }

  // ------------------------------------------------------------- in numbers

  /** One more cut, a tenth to the left, with bounds for the heights on both sides. */
  lemma OneMoreTenth(p: seq<real>, x: real, high: real, low: real, lower: real, upper: real) returns (q: seq<real>)
    requires Cuts(p) && 0.0 <= x && p[0] - x == 0.1
    requires 4.0 <= high * (x * x + 1.0) && low * (p[0] * p[0] + 1.0) <= 4.0
    requires lower <= Lower(F, p) && Upper(F, p) <= upper
    ensures Cuts(q) && q[0] == x && Last(q) == Last(p)
    ensures lower + low * 0.1 <= Lower(F, q) && Upper(F, q) <= upper + high * 0.1
  {
    q := [x] + p;
    Highest(x, high);
    Lowest(p[0], low);
    hide F;
    OneMoreCut(x, p);
    OneMoreRectangle(F, x, p);
  }

  lemma Highest(x: real, high: real)
    requires 4.0 <= high * (x * x + 1.0)
    ensures F(x) <= high
  {
    FInverts(x);
    assert x * x + 1.0 > 0.0;
    hide F;
    Cancel(F(x), high, x * x + 1.0);
  }

  lemma Lowest(x: real, low: real)
    requires low * (x * x + 1.0) <= 4.0
    ensures low <= F(x)
  {
    FInverts(x);
    assert x * x + 1.0 > 0.0;
    hide F;
    Cancel(low, F(x), x * x + 1.0);
  }

  /** The lower and the upper sum over ten equal cuts. */
  lemma TenCuts() returns (p: seq<real>)
    ensures PartitionOf(p, 0.0, 1.0) && 3.03 < Lower(F, p) && Upper(F, p) < 3.25
  {
    hide F;
    p := [1.0];
    p := OneMoreTenth(p, 0.9, 2.21, 2.0, 0.0, 0.0);
    p := OneMoreTenth(p, 0.8, 2.44, 2.2, 0.2, 0.221);
    p := OneMoreTenth(p, 0.7, 2.69, 2.43, 0.42, 0.465);
    p := OneMoreTenth(p, 0.6, 2.95, 2.68, 0.663, 0.734);
    p := OneMoreTenth(p, 0.5, 3.2, 2.94, 0.931, 1.029);
    p := OneMoreTenth(p, 0.4, 3.45, 3.2, 1.225, 1.349);
    p := OneMoreTenth(p, 0.3, 3.67, 3.44, 1.545, 1.694);
    p := OneMoreTenth(p, 0.2, 3.85, 3.66, 1.889, 2.061);
    p := OneMoreTenth(p, 0.1, 3.97, 3.84, 2.255, 2.446);
    p := OneMoreTenth(p, 0.0, 4.0, 3.96, 2.639, 2.843);
  }

  /** What is printed is 3.14 up to a tenth and the width of the rectangles, whatever k and dx. */
  lemma TotalInNumbers(k: nat, dx: real)
    requires k > 0 && dx > 0.0
    ensures 3.03 < Total(k, dx) < 3.25 + 4.0 * (k as real * dx)
  {
    hide F;
    var p := TenCuts();
    TotalBetweenSums(k, dx, p);
  }

  /** One thread, two rectangles. */
  lemma TwoRectangles()
    ensures Total(1, 0.5) == 3.6
  {
    FInverts(0.0);
    FInverts(0.5);
    assert F(0.0) == 4.0 && F(0.5) == 3.2;
    hide F;
    EdgesIncrease(0, 1);
    assert StepSum(F, 1.0, 1.0, 0.5) == 0.0;
    assert StepSum(F, 0.5, 1.0, 0.5) == 1.6;
    assert StepSum(F, 0.0, 1.0, 0.5) == 3.6;
  }
}
