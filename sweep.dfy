/**
 * The sweep over q = prec, 2 prec, ... below 1: for each q it picks the
 * truncation bound, builds P, sums player 1's win probability and records
 * the matched pair (percolation_targets_sim.py, lines 40-59).
 */
module Sweep {
  import opened Powers
  import opened Recurrence
  import opened WinProbability
  import opened Input

  /**
   * The number MaxK of terms kept for q: the integer part of 50/q, so that
   * the neglected weight (1-q)^MaxK is tiny. For q <= 1 at least 50 terms
   * are kept.
   */
  function TruncationBound(q: real): (k: nat)
    requires 0.0 < q
    ensures k as real <= 50.0 / q < (k + 1) as real
    ensures q <= 1.0 ==> k >= 50
  {
    if q <= 1.0 then DivAtLeast(50.0, q); (50.0 / q).Floor else (50.0 / q).Floor
  }

  /** Multiplying both sides by a positive number keeps a non-strict inequality. */
  lemma MulMonotone(a: real, b: real, c: real)
    requires a <= b && 0.0 < c
    ensures a * c <= b * c
  {
    assert b * c - a * c == (b - a) * c;
  }

  /** Multiplying both sides by a positive number keeps a strict inequality. */
  lemma MulStrictMonotone(a: real, b: real, c: real)
    requires a < b && 0.0 < c
    ensures a * c < b * c
  {
    assert b * c - a * c == (b - a) * c;
  }

  /** Dividing a non-negative number by a factor in (0, 1] does not decrease it. */
  lemma DivAtLeast(y: real, c: real)
    requires 0.0 <= y && 0.0 < c <= 1.0
    ensures y <= y / c
  {
    var r := y / c;
    assert r * c == y;
    assert r - y == r * (1.0 - c);
  }

  /** Dividing by a larger positive number gives a smaller quotient. */
  lemma DivAntitone(y: real, c1: real, c2: real)
    requires 0.0 <= y && 0.0 < c1 <= c2
    ensures y / c2 <= y / c1
  {
    var r1, r2 := y / c1, y / c2;
    assert r1 * c1 == y && r2 * c2 == y;
    assert r1 * c2 - y == r1 * (c2 - c1);
    assert (r1 - r2) * c2 == r1 * c2 - y;
  }

  /** For c > 0, m < 1/c gives m c < 1. */
  lemma BelowReciprocal(m: real, c: real)
    requires 0.0 < c && m < 1.0 / c
    ensures m * c < 1.0
  {
    var gap := 1.0 / c - m;
    assert 0.0 < gap * c;
    assert gap * c == 1.0 - m * c;
  }

  /** For c > 0, 1/c <= m gives 1 <= m c. */
  lemma AtLeastReciprocal(m: real, c: real)
    requires 0.0 < c && 1.0 / c <= m
    ensures 1.0 <= m * c
  {
    MulMonotone(1.0 / c, m, c);
    assert (1.0 / c) * c == 1.0;
  }

  /** A step of at most 0.05 fits at least 20 times into 1. */
  lemma ReciprocalOfAccepted(prec: real)
    requires PrecisionAccepted(prec)
    ensures 20.0 <= 1.0 / prec
  {
    DivAtLeast(1.0, prec / 0.05);
  }

  /** A smaller q never gets fewer terms. */
  lemma TruncationBoundAntitone(q1: real, q2: real)
    requires 0.0 < q1 <= q2
    ensures TruncationBound(q2) <= TruncationBound(q1)
  {
    DivAntitone(50.0, q1, q2);
  }

  /** Player 1's win probability for q on lattice t, over exact reals. */
  function WinProbabilityAt(q: real, t: Topology): real
    requires 0.0 < q
  {
    var k := TruncationBound(q);
    WinSum(q, seq(k + 1, j requires 0 <= j => P(q, j)), t, k)
  }

  /**
   * For 0 < q < 1 both win probabilities lie in [0, 1 - (1-q)^MaxK], which
   * is below 1, and the full grid's is at least the wedge's.
   */
  lemma WinProbabilityBounds(q: real)
    requires 0.0 < q < 1.0
    ensures 0.0 <= WinProbabilityAt(q, Wedge) <= WinProbabilityAt(q, FullGrid)
    ensures WinProbabilityAt(q, FullGrid) <= 1.0 - Pow(1.0 - q, TruncationBound(q)) < 1.0
  {
    var k := TruncationBound(q);
    var ps := seq(k + 1, j requires 0 <= j => P(q, j));
    forall i | 1 <= i <= k
      ensures 0.0 <= ps[i] <= 1.0
    {
      PInUnit(q, i);
    }
    WinSumBounds(q, ps, Wedge, k);
    WinSumBounds(q, ps, FullGrid, k);
    GridDominatesWedge(q, ps, k);
    WeightTotalClosedForm(q, k);
    PowPositive(1.0 - q, k);
  }

  /** n is the number of multiples j prec, j >= 1, that lie strictly below 1. */
  ghost predicate IsPointCount(prec: real, n: nat)
    requires 0.0 < prec
  {
    n as real < 1.0 / prec <= (n + 1) as real
  }

  /** The point count is determined by the precision. */
  lemma PointCountUnique(prec: real, m: nat, n: nat)
    requires 0.0 < prec
    requires IsPointCount(prec, m) && IsPointCount(prec, n)
    ensures m == n
  {
  }

  /** An accepted precision yields at least 19 points, and exactly 19 at the coarsest step 0.05. */
  lemma AcceptedPrecisionPointCount(prec: real, n: nat)
    requires PrecisionAccepted(prec)
    requires IsPointCount(prec, n)
    ensures n >= 19
    ensures prec == 0.05 ==> n == 19
  {
    ReciprocalOfAccepted(prec);
  }

  /**
   * One step of the sweep: MaxK for q, the list P, and player 1's win
   * probability on lattice t.
   */
  method EvaluateAt(q: real, t: Topology) returns (sum: real)
    requires 0.0 < q < 1.0
    ensures sum == WinProbabilityAt(q, t)
    ensures 0.0 <= sum < 1.0
  {
    var maxK := TruncationBound(q);
    var ps := BuildP(q, maxK);
    sum := ComputeWin(q, ps, t, maxK);
    assert ps == seq(maxK + 1, j requires 0 <= j => P(q, j));
    WinProbabilityBounds(q);
  }

  /**
   * The number of grid points prec, 2 prec, ... strictly below 1: one less
   * than the ceiling of 1/prec, the length of the grid the simulation
   * iterates over.
   */
  function PointCount(prec: real): (n: nat)
    requires 0.0 < prec
    ensures IsPointCount(prec, n)
  {
    var r := 1.0 / prec;
    if r.Floor as real == r then r.Floor - 1 else r.Floor
  }

  /** Every grid point before the point count lies strictly between 0 and 1. */
  lemma GridPointInRange(prec: real, n: nat, j: nat)
    requires 0.0 < prec && IsPointCount(prec, n)
    requires j < n
    ensures 0.0 < (j + 1) as real * prec
    ensures (j + 1) as real * prec < 1.0
  {
    BelowPointCount(prec, n, (j + 1) as real);
    assert 0.0 < (j + 1) as real * prec;
  }

  /** A multiplier no larger than the point count keeps the grid point below 1. */
  lemma BelowPointCount(prec: real, n: nat, m: real)
    requires 0.0 < prec && IsPointCount(prec, n)
    requires m <= n as real
    ensures m * prec < 1.0
  {
    BelowReciprocal(m, prec);
  }

  /** The grid point (k+1) prec, the k-th value of q; positive for a positive step. */
  function GridPoint(prec: real, k: nat): (q: real)
    requires 0.0 < prec
    ensures 0.0 < q
  {
    assert 0.0 < (k + 1) as real * prec;
    (k + 1) as real * prec
  }

  /** The grid points increase strictly with their index. */
  lemma GridIncreasing(prec: real, i: nat, j: nat)
    requires 0.0 < prec && i < j
    ensures GridPoint(prec, i) < GridPoint(prec, j)
  {
    MulStrictMonotone((i + 1) as real, (j + 1) as real, prec);
  }

  /**
   * The grid points below 1 are exactly the first n: the sweep stops at the
   * point count.
   */
  lemma GridBelowOneExactly(prec: real, n: nat, j: nat)
    requires 0.0 < prec && IsPointCount(prec, n)
    ensures GridPoint(prec, j) < 1.0 <==> j < n
  {
    if j < n {
      GridPointInRange(prec, n, j);
    } else {
      assert 1.0 / prec <= (j + 1) as real;
      AtLeastReciprocal((j + 1) as real, prec);
    }
  }

  /** The first n grid points. */
  function Grid(prec: real, n: nat): (g: seq<real>)
    requires 0.0 < prec
    ensures |g| == n
  {
    if n == 0 then [] else Grid(prec, n - 1) + [GridPoint(prec, n - 1)]
  }

  /** The win probabilities on lattice t at the first n grid points. */
  function Curve(prec: real, t: Topology, n: nat): (c: seq<real>)
    requires 0.0 < prec
    ensures |c| == n
  {
    if n == 0 then [] else Curve(prec, t, n - 1) + [WinProbabilityAt(GridPoint(prec, n - 1), t)]
  }

  /** The k-th grid point is (k+1) prec, and the k-th entry of the curve is the win probability there. */
  lemma {:induction false} GridAndCurveElements(prec: real, t: Topology, n: nat)
    requires 0.0 < prec
    ensures forall k :: 0 <= k < n ==> Grid(prec, n)[k] == GridPoint(prec, k)
    ensures forall k :: 0 <= k < n ==> Curve(prec, t, n)[k] == WinProbabilityAt(GridPoint(prec, k), t)
  {
    if n > 0 {
      GridAndCurveElements(prec, t, n - 1);
    }
  }

  /**
   * Up to the point count, the grid points lie strictly between 0 and 1 and
   * increase, and the win probabilities at them lie in [0, 1).
   */
  lemma GridAndCurveBounds(prec: real, t: Topology, n: nat)
    requires 0.0 < prec && IsPointCount(prec, n)
    ensures forall k :: 0 <= k < n ==> 0.0 < Grid(prec, n)[k] < 1.0
    ensures forall i, j :: 0 <= i < j < n ==> Grid(prec, n)[i] < Grid(prec, n)[j]
    ensures forall k :: 0 <= k < n ==> 0.0 <= Curve(prec, t, n)[k] < 1.0
  {
    GridAndCurveElements(prec, t, n);
    var g := Grid(prec, n);
    forall k | 0 <= k < n
      ensures 0.0 < g[k] < 1.0
      ensures 0.0 <= Curve(prec, t, n)[k] < 1.0
    {
      GridPointInRange(prec, n, k);
      WinProbabilityBounds(g[k]);
    }
    forall i, j | 0 <= i < j < n
      ensures g[i] < g[j]
    {
      GridIncreasing(prec, i, j);
    }
  }

  /**
   * The sweep: for each grid point q = prec, 2 prec, ... below 1 it computes
   * MaxK, the list P and the win probability, and appends the matched pair
   * (q, Sum) to the two result lists.
   */
  method RunSweep(prec: real, struc: string) returns (qs: seq<real>, probabilities: seq<real>)
    requires PrecisionAccepted(prec)
    requires StructureAccepted(struc)
    ensures |qs| == |probabilities|
    ensures IsPointCount(prec, |qs|)
    ensures qs == Grid(prec, |qs|) && probabilities == Curve(prec, SelectTopology(struc), |qs|)
    ensures forall j :: 0 <= j < |qs| ==> qs[j] == (j + 1) as real * prec
    ensures forall j :: 0 <= j < |qs| ==> 0.0 < qs[j] < 1.0
    ensures forall i, j :: 0 <= i < j < |qs| ==> qs[i] < qs[j]
    ensures forall j :: 0 <= j < |qs| ==> probabilities[j] == WinProbabilityAt(qs[j], SelectTopology(struc))
    ensures forall j :: 0 <= j < |qs| ==> 0.0 <= probabilities[j] < 1.0
  {
    var t := SelectTopology(struc);
    var n := PointCount(prec);
    qs, probabilities := [], [];
    for j := 0 to n
      invariant qs == Grid(prec, j)
      invariant probabilities == Curve(prec, t, j)
    {
      var q := GridPoint(prec, j);
      GridPointInRange(prec, n, j);
      var sum := EvaluateAt(q, t);
      qs := qs + [q];
      probabilities := probabilities + [sum];
    }
    GridAndCurveElements(prec, t, n);
    GridAndCurveBounds(prec, t, n);
  }
}
