/**
 * The recurrence builder: the cumulative probability P(k) that the recursive
 * game quantity has resolved in player 1's favour by step k, truncated after
 * a given number of steps (percolation_targets_sim.py, lines 45-47).
 */
module Recurrence {
  import opened Powers

  /** One step of the recurrence: P(k+1) from P(k) = p. */
  function Step(q: real, p: real, k: nat): real
  {
    p + q * (1.0 - p) * Pow(1.0 - q, k)
  }

  /** The exact recurrence value P(k): P(0) = 0 and P(k+1) = Step(q, P(k), k). */
  function P(q: real, k: nat): real
  {
    if k == 0 then 0.0 else Step(q, P(q, k - 1), k - 1)
  }

  /** The chance 1 - q(1-q)^k that step k does not resolve the game. */
  function Miss(q: real, k: nat): real
  {
    1.0 - q * Pow(1.0 - q, k)
  }

  /**
   * An independent reference for 1 - P(k): the product of Miss(q, j) over
   * the steps j < k.
   */
  function Unresolved(q: real, k: nat): real
  {
    if k == 0 then 1.0 else Unresolved(q, k - 1) * Miss(q, k - 1)
  }

  /** One step multiplies the unresolved mass 1 - p by the factor Miss(q, k). */
  lemma StepComplement(q: real, p: real, k: nat)
    ensures 1.0 - Step(q, p, k) == (1.0 - p) * Miss(q, k)
  {
  }

  /** The factor Miss(q, k) of each step lies in [0, 1] for every probability q. */
  lemma MissInUnit(q: real, k: nat)
    requires 0.0 <= q <= 1.0
    ensures 0.0 <= Miss(q, k) <= 1.0
  {
    PowInUnit(1.0 - q, k);
    MulInUnit(q, Pow(1.0 - q, k));
  }

  /** P(k) is one minus the product of the per-step factors. */
  lemma {:induction false} PClosedForm(q: real, k: nat)
    ensures P(q, k) == 1.0 - Unresolved(q, k)
  {
    if k > 0 {
      PClosedForm(q, k - 1);
      StepComplement(q, P(q, k - 1), k - 1);
    }
  }

  /** The unresolved mass stays in [0, 1]. */
  lemma {:induction false} UnresolvedInUnit(q: real, k: nat)
    requires 0.0 <= q <= 1.0
    ensures 0.0 <= Unresolved(q, k) <= 1.0
  {
    if k > 0 {
      UnresolvedInUnit(q, k - 1);
      MissInUnit(q, k - 1);
      MulInUnit(Unresolved(q, k - 1), Miss(q, k - 1));
    }
  }

  /** Every P(k) is a probability. */
  lemma PInUnit(q: real, k: nat)
    requires 0.0 <= q <= 1.0
    ensures 0.0 <= P(q, k) <= 1.0
  {
    PClosedForm(q, k);
    UnresolvedInUnit(q, k);
  }

  /** Each step adds a non-negative increment. */
  lemma PStepNonDecreasing(q: real, k: nat)
    requires 0.0 <= q <= 1.0
    ensures P(q, k) <= P(q, k + 1)
  {
    PInUnit(q, k);
    PowInUnit(1.0 - q, k);
    MulInUnit(q, 1.0 - P(q, k));
    MulInUnit(q * (1.0 - P(q, k)), Pow(1.0 - q, k));
    assert P(q, k + 1) == P(q, k) + q * (1.0 - P(q, k)) * Pow(1.0 - q, k);
  }

  /** P is non-decreasing in k. */
  lemma {:induction false} PMonotone(q: real, j: nat, k: nat)
    requires 0.0 <= q <= 1.0
    requires j <= k
    ensures P(q, j) <= P(q, k)
  {
    if j < k {
      PMonotone(q, j, k - 1);
      PStepNonDecreasing(q, k - 1);
    }
  }

  /**
   * Builds the list P[0..maxK] by appending one value per step, as the
   * simulation does for MaxK steps.
   */
  method BuildP(q: real, maxK: nat) returns (ps: seq<real>)
    ensures |ps| == maxK + 1
    ensures ps[0] == 0.0
    ensures forall k :: 0 <= k < maxK ==> ps[k + 1] == Step(q, ps[k], k)
    ensures forall k :: 0 <= k <= maxK ==> ps[k] == P(q, k)
    ensures 0.0 <= q <= 1.0 ==> forall k :: 0 <= k <= maxK ==> 0.0 <= ps[k] <= 1.0
    ensures 0.0 <= q <= 1.0 ==> forall j, k :: 0 <= j <= k <= maxK ==> ps[j] <= ps[k]
  {
    ps := [0.0];
    for k := 0 to maxK
      invariant |ps| == k + 1
      invariant forall j :: 0 <= j <= k ==> ps[j] == P(q, j)
    {
      ps := ps + [Step(q, ps[k], k)];
    }
    if 0.0 <= q <= 1.0 {
      forall k | 0 <= k <= maxK
        ensures 0.0 <= ps[k] <= 1.0
      {
        PInUnit(q, k);
      }
      forall j, k | 0 <= j <= k <= maxK
        ensures ps[j] <= ps[k]
      {
        PMonotone(q, j, k);
      }
    }
  }
}
