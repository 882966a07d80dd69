# Percolation targets game: win-probability sweep

A Dafny model of the numerical core of `percolation_targets_sim.py`. The
program estimates player 1's chance of winning a percolation game on the
lattice Z^2. The game is played either on the wedge x >= y or on the full
grid. For each value of the site parameter q on the grid prec, 2 prec, ...
below 1, it does three things:

- It chooses a truncation bound MaxK, the integer part of 50/q.
- It builds the list P(0..MaxK) of the step recurrence
  P(k+1) = P(k) + q (1 - P(k)) (1-q)^k, starting from P(0) = 0.
- It sums, over the steps i = 1..MaxK, the chance q (1-q)^(i-1) that the
  game is decided exactly at step i, times the chance that player 1 has won
  by then. That chance is P(i) on the wedge and 1 - (1 - P(i))^2 on the full
  grid.

It keeps the matched pairs (q, Sum) in the two lists `qs` and
`probabilities`. It accepts a precision prec only when 0 < prec <= 0.05, and
a structure answer only when its upper-case form is "W" or "Z".

The model works over exact reals. There are five modules, one file each:

- `Powers` (`powers.dfy`): natural powers, the `**` with a non-negative
  integer exponent.
- `Recurrence` (`recurrence.dfy`): the recurrence builder.
- `WinProbability` (`win_probability.dfy`): the aggregator.
- `Input` (`input.dfy`): the two acceptance conditions and the choice of
  lattice.
- `Sweep` (`sweep.dfy`): the truncation bound, one step of the sweep, and
  the sweep itself.

The two inner loops and the outer loop are methods with loop invariants.
Each is proved against a recursive specification function:

- `BuildP` against `P`.
- `ComputeWin` against `WinSum`.
- `RunSweep` against `Grid` and `Curve`.

Lemmas then prove what the program relies on about those functions.

The program reports no errors. A rejected precision or structure answer makes
it ask again (lines 20-38), and the computation never checks q or MaxK. The
model follows the program: `RunSweep` requires the acceptance conditions, and
`BuildP` and `ComputeWin` accept any q, as the inline loops do.

The comment on line 40 says the sweep runs up to q = 1. `np.arange` with
stop 1 excludes 1, so the model's grid stops at the last multiple of prec
strictly below 1. `GridBelowOneExactly` proves this.

## Model

| member | source | states |
|---|---|---|
| Recurrence.Step | percolation_targets_sim.py:47 | Defines one step of the recurrence: the value appended after P[k], P[k] + q (1 - P[k]) (1-q)^k |
| Recurrence.P | percolation_targets_sim.py:45-47 | Defines the exact recurrence value P(k): 0 at k = 0, then Step applied k times |
| Recurrence.BuildP | percolation_targets_sim.py:45-47 | The list has MaxK+1 entries, starts at 0 and follows the step recurrence; every entry is the exact P(k); for q in [0,1] every entry lies in [0,1] and the list is non-decreasing |
| Recurrence.StepComplement | percolation_targets_sim.py:47 | One step multiplies the unresolved mass 1-P(k) by 1 - q(1-q)^k |
| Recurrence.PClosedForm | percolation_targets_sim.py:45-47 | P(k) equals one minus the product of the per-step miss factors, an independent reference definition |
| Recurrence.UnresolvedInUnit | percolation_targets_sim.py:45-47 | For q in [0,1] the unresolved mass stays in [0,1] |
| Recurrence.PInUnit | percolation_targets_sim.py:45-47 | For q in [0,1] every P(k) is a probability |
| Recurrence.PStepNonDecreasing | percolation_targets_sim.py:47 | For q in [0,1] each step adds a non-negative increment |
| Recurrence.PMonotone | percolation_targets_sim.py:45-47 | For q in [0,1], j <= k implies P(j) <= P(k) |
| Recurrence.MissInUnit | percolation_targets_sim.py:47 | The per-step miss factor 1 - q(1-q)^k lies in [0,1] for q in [0,1] |
| Powers.PowInUnit | percolation_targets_sim.py:47 | Every power (1-q)^k of a number in [0,1] lies in [0,1] |
| Powers.PowPositive | percolation_targets_sim.py:53 | Every power of a positive number is positive, so (1-q)^MaxK > 0 for q < 1 |
| Powers.PowTwo | percolation_targets_sim.py:55 | Helper: the square `**2` is the product of the number with itself |
| WinProbability.Weight | percolation_targets_sim.py:53 | Defines the weight q (1-q)^(i-1) of step i, the chance that the game is decided exactly at step i |
| WinProbability.Contribution | percolation_targets_sim.py:52-55 | Defines the chance that player 1 has won by a step: P[i] on the wedge, 1 - (1 - P[i])^2 on the full grid |
| WinProbability.WinSum | percolation_targets_sim.py:50-55 | Defines the weighted sum of the contributions of P[1..n], in step order |
| WinProbability.ComputeWin | percolation_targets_sim.py:50-55 | The loop's Sum is the weighted sum WinSum over i = 1..MaxK; for q and P in [0,1] it lies in [0, 1-(1-q)^MaxK] |
| WinProbability.WeightTotalClosedForm | percolation_targets_sim.py:51-55 | The weights q(1-q)^(i-1) for i = 1..n add up to 1-(1-q)^n |
| WinProbability.WeightTotalBelowOne | percolation_targets_sim.py:51-55 | For 0 <= q < 1 the truncated total weight lies in [0,1) |
| WinProbability.ContributionBounds | percolation_targets_sim.py:52-55 | For p in [0,1]: 0 <= p (wedge) <= 1-(1-p)^2 (full grid) <= 1 |
| WinProbability.ContributionInUnit | percolation_targets_sim.py:52-55 | For p in [0,1] either lattice's contribution is a probability |
| WinProbability.WeightInUnit | percolation_targets_sim.py:53 | Each weight q(1-q)^(i-1) is a probability for q in [0,1] |
| WinProbability.WinSumBounds | percolation_targets_sim.py:50-55 | With P in [0,1] the weighted sum never exceeds the total weight of the steps summed |
| WinProbability.GridDominatesWedge | percolation_targets_sim.py:50-55 | On the same P, the full grid's sum is at least the wedge's |
| Input.PrecisionAccepted | percolation_targets_sim.py:25 | Defines the precision acceptance condition 0 < prec <= 0.05 |
| Input.StructureAccepted | percolation_targets_sim.py:35 | Defines the structure acceptance condition: the upper-case answer is "W" or "Z" |
| Input.Upper | percolation_targets_sim.py:35 | Upper-casing keeps the length and maps each character by the ASCII letter rule |
| Input.UpperIsLetter | percolation_targets_sim.py:35 | A string upper-cases to the capital letter c exactly when it is c or its lower-case form |
| Input.StructureAcceptedExactly | percolation_targets_sim.py:35 | The structure prompt accepts exactly "w", "W", "z" and "Z" |
| Input.SelectTopology | percolation_targets_sim.py:52-55 | The wedge branch is taken exactly for "w" and "W"; every other answer takes the full-grid branch |
| Sweep.TruncationBound | percolation_targets_sim.py:41 | MaxK is the integer part of 50/q: MaxK <= 50/q < MaxK+1; for q <= 1 at least 50 terms are kept |
| Sweep.TruncationBoundAntitone | percolation_targets_sim.py:41 | A smaller q never gets fewer terms |
| Sweep.ReciprocalOfAccepted | percolation_targets_sim.py:25 | Helper: an accepted precision satisfies 1/prec >= 20 |
| Sweep.WinProbabilityBounds | percolation_targets_sim.py:41-55 | For 0 < q < 1: 0 <= wedge probability <= full-grid probability <= 1-(1-q)^MaxK < 1 |
| Sweep.WinProbabilityAt | percolation_targets_sim.py:41-55 | Defines player 1's exact win probability at q: WinSum over P(0..MaxK) with MaxK = TruncationBound(q) |
| Sweep.EvaluateAt | percolation_targets_sim.py:41-55 | One pass of the sweep body yields the exact win probability at q, and it lies in [0,1) |
| Sweep.PointCount | percolation_targets_sim.py:40 | The grid length n satisfies n < 1/prec <= n+1 |
| Sweep.PointCountUnique | percolation_targets_sim.py:40 | That condition determines the grid length |
| Sweep.AcceptedPrecisionPointCount | percolation_targets_sim.py:25 | An accepted precision gives at least 19 grid points, and exactly 19 for 0.05 |
| Sweep.GridPointInRange | percolation_targets_sim.py:40 | Each grid point before the point count lies strictly between 0 and 1 |
| Sweep.GridBelowOneExactly | percolation_targets_sim.py:40 | A grid point lies below 1 exactly when its index is below the point count, so the sweep stops where `np.arange(prec, 1, prec)` does |
| Sweep.GridIncreasing | percolation_targets_sim.py:40 | Grid points increase strictly with their index |
| Sweep.GridPoint | percolation_targets_sim.py:40 | The k-th value (k+1) prec of q; it is positive for a positive step |
| Sweep.Grid | percolation_targets_sim.py:40 | The list of the first n grid points; it has n entries |
| Sweep.Curve | percolation_targets_sim.py:58-59 | The list of the win probabilities at the first n grid points; it has n entries |
| Sweep.GridAndCurveElements | percolation_targets_sim.py:40-59 | The k-th entry of qs is (k+1) prec, and the k-th entry of probabilities is the win probability there |
| Sweep.GridAndCurveBounds | percolation_targets_sim.py:40-59 | Up to the point count, the q values lie in (0,1) and increase, and the probabilities lie in [0,1) |
| Sweep.RunSweep | percolation_targets_sim.py:40-59 | For accepted inputs the two lists have equal length, namely the point count; qs is prec, 2 prec, ..., all in (0,1) and strictly increasing; each probabilities entry is the win probability at the matching q on the selected lattice, in [0,1) |

## Left out

- Console input loops, `float` and `int` parsing and the re-prompting on bad answers (lines 20-38, 93-104) are not modelled. Only the acceptance conditions of lines 25 and 35 are modelled.
- Plotting, titles and saving figures (lines 68-79, 122-131) are output only and are not modelled.
- The polynomial fit with `np.polyfit` and `np.poly1d` (lines 111-119) is a call into a numerical library that is not part of this model.
- `time`, `sys.exit` and the commented-out printing (lines 42, 61-65, 107-108, 133) are not modelled.
- IEEE double rounding is not modelled. q, P and Sum are exact reals, and the grid points are the exact multiples (k+1) prec. `np.arange` computes prec + k prec in floating point and sizes the grid as ceil((1 - prec)/prec); the two can differ by one point when rounding falls on the boundary.
- Input.Upper: models `str.upper` only on the ASCII letters a-z. Other characters are left unchanged, so upper-casing that changes length or non-ASCII letters is not modelled.
- The module-level lists `qs` and `probabilities` are modelled as the results of `RunSweep`, which assumes a single sweep per run.
- Convergence of the truncated sum as MaxK grows, and monotonicity of the win probability in q, are not claimed by the program and are not proved.
