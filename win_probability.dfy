/**
 * The win-probability aggregator: player 1's win probability as the sum,
 * over the steps i = 1..K, of the chance q(1-q)^(i-1) that the deciding
 * event happens exactly at step i times the chance that player 1 has won by
 * then (percolation_targets_sim.py, lines 50-55).
 */
module WinProbability {
  import opened Powers

  /** The lattice the game is played on: the wedge x >= y of Z^2, or all of Z^2. */
  datatype Topology = Wedge | FullGrid

  /** The chance q(1-q)^(i-1) that the deciding event happens exactly at step i. */
  function Weight(q: real, i: nat): real
    requires i >= 1
  {
    q * Pow(1.0 - q, i - 1)
  }

  /**
   * The chance that player 1 has won by a step at which the recursive
   * quantity has resolved with probability p: p itself on the wedge, and on
   * the full grid the chance 1 - (1-p)^2 that at least one of two independent
   * copies has resolved.
   */
  function Contribution(t: Topology, p: real): real
  {
    match t
    case Wedge => p
    case FullGrid => 1.0 - Pow(1.0 - p, 2)
  }

  /** The weighted sum of the contributions of ps[1..n], accumulated in step order. */
  function WinSum(q: real, ps: seq<real>, t: Topology, n: nat): real
    requires n < |ps|
  {
    if n == 0 then 0.0 else WinSum(q, ps, t, n - 1) + Contribution(t, ps[n]) * Weight(q, n)
  }

  /** The total weight of the steps 1..n. */
  function WeightTotal(q: real, n: nat): real
  {
    if n == 0 then 0.0 else WeightTotal(q, n - 1) + Weight(q, n)
  }

  /** The weights of the steps 1..n add up to 1 - (1-q)^n: the chance that the game is decided by step n. */
  lemma {:induction false} WeightTotalClosedForm(q: real, n: nat)
    ensures WeightTotal(q, n) == 1.0 - Pow(1.0 - q, n)
  {
    if n > 0 {
      WeightTotalClosedForm(q, n - 1);
      assert Pow(1.0 - q, n) == (1.0 - q) * Pow(1.0 - q, n - 1);
    }
  }

  /** For q < 1 the truncated total weight is strictly below one. */
  lemma WeightTotalBelowOne(q: real, n: nat)
    requires 0.0 <= q < 1.0
    ensures 0.0 <= WeightTotal(q, n) < 1.0
  {
    WeightTotalClosedForm(q, n);
    PowPositive(1.0 - q, n);
    PowInUnit(1.0 - q, n);
  }

  /**
   * For p in [0, 1] both contributions lie in [0, 1], and the full grid's is
   * at least the wedge's.
   */
  lemma ContributionBounds(p: real)
    requires 0.0 <= p <= 1.0
    ensures 0.0 <= Contribution(Wedge, p) <= Contribution(FullGrid, p) <= 1.0
  {
    PowTwo(1.0 - p);
    MulInUnit(p, 1.0 - p);
    assert Contribution(FullGrid, p) == p + p * (1.0 - p);
    assert Contribution(FullGrid, p) == 1.0 - (1.0 - p) * (1.0 - p);
    MulInUnit(1.0 - p, 1.0 - p);
  }

  /** For p in [0, 1] the contribution of either topology is a probability. */
  lemma ContributionInUnit(t: Topology, p: real)
    requires 0.0 <= p <= 1.0
    ensures 0.0 <= Contribution(t, p) <= 1.0
  {
    ContributionBounds(p);
  }

  /** Every step's weight is a probability. */
  lemma WeightInUnit(q: real, i: nat)
    requires 0.0 <= q <= 1.0
    requires i >= 1
    ensures 0.0 <= Weight(q, i) <= 1.0
  {
    PowInUnit(1.0 - q, i - 1);
    MulInUnit(q, Pow(1.0 - q, i - 1));
  }

  /** Adding c * w with c in [0, 1] to a partial sum bounded by total keeps it bounded by total + w. */
  lemma AddWeighted(sum: real, total: real, c: real, w: real)
    requires 0.0 <= sum <= total
    requires 0.0 <= c <= 1.0 && 0.0 <= w <= 1.0
    ensures 0.0 <= sum + c * w <= total + w
  {
    MulInUnit(c, w);
  }

  /** The contributions weighted by Weight never exceed the total weight of the steps. */
  lemma {:induction false} WinSumBounds(q: real, ps: seq<real>, t: Topology, n: nat)
    requires 0.0 <= q <= 1.0
    requires n < |ps|
    requires forall i :: 1 <= i <= n ==> 0.0 <= ps[i] <= 1.0
    ensures 0.0 <= WinSum(q, ps, t, n) <= WeightTotal(q, n)
  {
    if n > 0 {
      var sum, total, c, w := WinSum(q, ps, t, n - 1), WeightTotal(q, n - 1), Contribution(t, ps[n]), Weight(q, n);
      assert WinSum(q, ps, t, n) == sum + c * w;
      assert WeightTotal(q, n) == total + w;
      WinSumBounds(q, ps, t, n - 1);
      ContributionInUnit(t, ps[n]);
      WeightInUnit(q, n);
      AddWeighted(sum, total, c, w);
    }
  }

  /** On the same P, the full grid's sum is at least the wedge's. */
  lemma {:induction false} GridDominatesWedge(q: real, ps: seq<real>, n: nat)
    requires 0.0 <= q <= 1.0
    requires n < |ps|
    requires forall i :: 1 <= i <= n ==> 0.0 <= ps[i] <= 1.0
    ensures WinSum(q, ps, Wedge, n) <= WinSum(q, ps, FullGrid, n)
  {
    if n > 0 {
      GridDominatesWedge(q, ps, n - 1);
      ContributionBounds(ps[n]);
      WeightInUnit(q, n);
      var w := Weight(q, n);
      var gap := Contribution(FullGrid, ps[n]) - Contribution(Wedge, ps[n]);
      assert 0.0 <= gap * w;
      assert Contribution(FullGrid, ps[n]) * w == Contribution(Wedge, ps[n]) * w + gap * w;
    }
  }

  /**
   * The running sum of the simulation over i = 1..maxK: each step adds
   * P[i] q (1-q)^(i-1) on the wedge and (1 - (1-P[i])^2) q (1-q)^(i-1) on the
   * full grid.
   */
  method ComputeWin(q: real, ps: seq<real>, t: Topology, maxK: nat) returns (sum: real)
    requires maxK < |ps|
    ensures sum == WinSum(q, ps, t, maxK)
    ensures 0.0 <= q <= 1.0 && (forall i :: 1 <= i <= maxK ==> 0.0 <= ps[i] <= 1.0) ==>
              0.0 <= sum <= 1.0 - Pow(1.0 - q, maxK)
  {
    sum := 0.0;
    for i := 1 to maxK + 1
      invariant sum == WinSum(q, ps, t, i - 1)
    {
      if t == Wedge {
        sum := sum + ps[i] * q * Pow(1.0 - q, i - 1);
      } else {
        sum := sum + (1.0 - Pow(1.0 - ps[i], 2)) * q * Pow(1.0 - q, i - 1);
      }
    }
    if 0.0 <= q <= 1.0 && (forall i :: 1 <= i <= maxK ==> 0.0 <= ps[i] <= 1.0) {
      WinSumBounds(q, ps, t, maxK);
      WeightTotalClosedForm(q, maxK);
    }
  }
}
