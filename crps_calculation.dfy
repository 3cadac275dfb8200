/** The multi-horizon CRPS ledger of one miner
    (`calculate_crps_for_miner` in simulation/validator/crps_calculation.py).

    Scores are exact reals. The two foreign computations, the ensemble CRPS
    and the price-change transform, are parameters of the computation; the
    transform is only known through its shape contract. */
module CrpsCalculation {

  /** A two-dimensional array with `cols` columns; `rows` holds its rows. */
  datatype Matrix = Matrix(cols: nat, rows: seq<seq<real>>)

  predicate WellFormed(m: Matrix) {
    forall r :: r in m.rows ==> |r| == m.cols
  }

  /** `path.reshape(1, -1)`: the path as a one-row matrix. */
  function Reshape(path: seq<real>): (m: Matrix)
    ensures WellFormed(m) && |m.rows| == 1 && m.rows[0] == path
  {
    Matrix(|path|, [path])
  }

  /** `m[:, t]`: entry `t` of every row, in row order. */
  function Column(m: Matrix, t: nat): (col: seq<real>)
    requires WellFormed(m) && t < m.cols
    ensures |col| == |m.rows|
    ensures forall i :: 0 <= i < |col| ==> col[i] == m.rows[i][t]
  {
    seq(|m.rows|, i requires 0 <= i < |m.rows| => assert m.rows[i] in m.rows; m.rows[i][t])
  }

  /** `calculate_price_changes_over_intervals(paths, steps)`. */
  type PriceChanges = (Matrix, int) -> Matrix

  /** `crps_ensemble(observation, forecasts)`. */
  type EnsembleScore = (real, seq<real>) -> real

  /** Shape contract of the change transform at one step count: the runs give
      a runs-by-k matrix, the real path a single series of the same k. */
  predicate ChangesShaped(changes: PriceChanges, runs: Matrix, realPath: seq<real>, steps: int) {
    && WellFormed(changes(runs, steps))
    && |changes(runs, steps).rows| == |runs.rows|
    && WellFormed(changes(Reshape(realPath), steps))
    && |changes(Reshape(realPath), steps).rows| == 1
    && changes(Reshape(realPath), steps).cols == changes(runs, steps).cols
  }

  /** The scoring horizons, in the order they are processed, with their
      length in seconds. */
  const ScoringIntervals: seq<(string, nat)> :=
    [("5min", 300), ("30min", 1800), ("3hour", 10800), ("24hour", 86400)]

  function Abs(x: int): nat {
    if x < 0 then -x else x
  }

  /** `int(interval / increment)`: the quotient truncated toward zero. Its
      magnitude is the largest whose multiple of the increment fits in the
      interval, and its sign is the increment's. */
  function IntervalSteps(intervalSeconds: nat, timeIncrement: int): (steps: int)
    requires timeIncrement != 0
    ensures Abs(steps) * Abs(timeIncrement) <= intervalSeconds < (Abs(steps) + 1) * Abs(timeIncrement)
    ensures timeIncrement > 0 ==> steps >= 0
    ensures timeIncrement < 0 ==> steps <= 0
  {
    var q := intervalSeconds / Abs(timeIncrement);
    if timeIncrement > 0 then q else -q
  }

  lemma IntervalStepsExamples()
    ensures IntervalSteps(86400, 300) == 288
    ensures IntervalSteps(10800, 420) == 25
    ensures IntervalSteps(300, -60) == -5
  {
  }

  /** A ledger label: the 1-based increment index, or a total. */
  datatype Increment = Index(n: nat) | Total

  /** One line of the detailed CRPS data. */
  datatype LedgerRow = LedgerRow(interval: string, increment: Increment, crps: real)

  function Sum(s: seq<real>): real {
    if s == [] then 0.0 else Sum(s[..|s| - 1]) + s[|s| - 1]
  }

  lemma {:induction false} SumConcat(a: seq<real>, b: seq<real>)
    ensures Sum(a + b) == Sum(a) + Sum(b)
  {
    if b == [] {
      assert a + b == a;
    } else {
      var b' := b[..|b| - 1];
      assert (a + b)[..|a + b| - 1] == a + b';
      SumConcat(a, b');
    }
  }

  /** The `crps` column of a run of ledger rows. */
  function CrpsOf(rows: seq<LedgerRow>): seq<real> {
    seq(|rows|, i requires 0 <= i < |rows| => rows[i].crps)
  }

  /** The per-increment rows of one horizon, numbered from 1 in score order. */
  function IncrementRows(name: string, scores: seq<real>): (rows: seq<LedgerRow>)
    ensures |rows| == |scores|
    ensures forall t :: 0 <= t < |scores| ==> rows[t] == LedgerRow(name, Index(t + 1), scores[t])
  {
    if scores == [] then []
    else IncrementRows(name, scores[..|scores| - 1]) + [LedgerRow(name, Index(|scores|), scores[|scores| - 1])]
  }

  /** The `crps` column of the increment rows gives back the scores. */
  lemma IncrementRowsCrps(name: string, scores: seq<real>)
    ensures CrpsOf(IncrementRows(name, scores)) == scores
  {
  }

  /** Appending the row of score `t` to a ledger that ends with the rows of
      the scores before it gives a ledger ending with the rows up to `t`. */
  lemma AppendIncrementRow(ledger: seq<LedgerRow>, name: string, scores: seq<real>, t: nat)
    requires t < |scores|
    ensures ledger + IncrementRows(name, scores[..t]) + [LedgerRow(name, Index(t + 1), scores[t])] ==
            ledger + IncrementRows(name, scores[..t + 1])
  {
    assert scores[..t + 1][..t] == scores[..t];
  }

  /** The block of one horizon: its increment rows, then its `Total` row. */
  function HorizonBlock(name: string, scores: seq<real>): seq<LedgerRow> {
    IncrementRows(name, scores) + [LedgerRow(name, Total, Sum(scores))]
  }

  /** The blocks of several horizons, one after the other, in list order. */
  function Blocks(names: seq<string>, scores: seq<seq<real>>): seq<LedgerRow>
    requires |names| == |scores|
  {
    if scores == [] then []
    else Blocks(names[..|names| - 1], scores[..|scores| - 1]) + HorizonBlock(names[|names| - 1], scores[|scores| - 1])
  }

  /** Sum of the horizon totals. */
  function Totals(scores: seq<seq<real>>): real {
    if scores == [] then 0.0 else Totals(scores[..|scores| - 1]) + Sum(scores[|scores| - 1])
  }

  /** Every increment score, horizon after horizon. */
  function Flatten(scores: seq<seq<real>>): seq<real> {
    if scores == [] then [] else Flatten(scores[..|scores| - 1]) + scores[|scores| - 1]
  }

  /** One more horizon adds its block at the end of the blocks. */
  lemma BlocksSnoc(names: seq<string>, scores: seq<seq<real>>, i: nat)
    requires |names| == |scores| && i < |scores|
    ensures Blocks(names[..i + 1], scores[..i + 1]) == Blocks(names[..i], scores[..i]) + HorizonBlock(names[i], scores[i])
    ensures Totals(scores[..i + 1]) == Totals(scores[..i]) + Sum(scores[i])
  {
    assert names[..i + 1][..i] == names[..i];
    assert scores[..i + 1][..i] == scores[..i];
  }

  /** Number of rows the blocks take: each horizon's increments plus its total. */
  function RowCount(scores: seq<seq<real>>): nat {
    if scores == [] then 0 else RowCount(scores[..|scores| - 1]) + |scores[|scores| - 1]| + 1
  }

  /** Summing the horizon totals counts every increment score exactly once. */
  lemma {:induction false} TotalsIsSumOfAll(scores: seq<seq<real>>)
    ensures Totals(scores) == Sum(Flatten(scores))
  {
    if scores != [] {
      var init := scores[..|scores| - 1];
      TotalsIsSumOfAll(init);
      SumConcat(Flatten(init), scores[|scores| - 1]);
    }
  }

  lemma {:induction false} BlocksLength(names: seq<string>, scores: seq<seq<real>>)
    requires |names| == |scores|
    ensures |Blocks(names, scores)| == RowCount(scores)
  {
    if scores != [] {
      BlocksLength(names[..|names| - 1], scores[..|scores| - 1]);
    }
  }

  /** Horizon `h`'s block starts right after the rows of the horizons before it. */
  lemma {:induction false} BlockAt(names: seq<string>, scores: seq<seq<real>>, h: nat)
    requires |names| == |scores| && h < |scores|
    ensures RowCount(scores[..h]) + |scores[h]| + 1 <= |Blocks(names, scores)|
    ensures Blocks(names, scores)[RowCount(scores[..h])..RowCount(scores[..h]) + |scores[h]| + 1] ==
            HorizonBlock(names[h], scores[h])
  {
    var n := |scores| - 1;
    var names', scores' := names[..n], scores[..n];
    BlocksLength(names', scores');
    if h == n {
      assert scores[..h] == scores';
    } else {
      BlockAt(names', scores', h);
      assert scores'[..h] == scores[..h];
    }
  }

  /** The ledger of a list of horizons: their blocks, then the `Overall` row
      holding the sum of every increment score. */
  function LedgerOf(names: seq<string>, scores: seq<seq<real>>): (ledger: seq<LedgerRow>)
    requires |names| == |scores|
    ensures |ledger| == RowCount(scores) + 1
    ensures ledger[|ledger| - 1] == LedgerRow("Overall", Total, Sum(Flatten(scores)))
  {
    BlocksLength(names, scores);
    TotalsIsSumOfAll(scores);
    Blocks(names, scores) + [LedgerRow("Overall", Total, Totals(scores))]
  }

  /** A run of rows found at `off` can be read back entry by entry. */
  lemma RowsAt(ledger: seq<LedgerRow>, off: nat, rows: seq<LedgerRow>)
    requires off + |rows| <= |ledger| && ledger[off..off + |rows|] == rows
    ensures forall t :: 0 <= t < |rows| ==> ledger[off + t] == rows[t]
  {
    forall t | 0 <= t < |rows|
      ensures ledger[off + t] == rows[t]
    {
      assert ledger[off..off + |rows|][t] == ledger[off + t];
    }
  }

  /** Horizon `h`'s block sits in the ledger right after the rows of the
      horizons before it. */
  lemma LedgerBlock(names: seq<string>, scores: seq<seq<real>>, h: nat)
    requires |names| == |scores| && h < |scores|
    ensures RowCount(scores[..h]) + |scores[h]| + 1 < |LedgerOf(names, scores)|
    ensures LedgerOf(names, scores)[RowCount(scores[..h])..RowCount(scores[..h]) + |scores[h]| + 1] ==
            HorizonBlock(names[h], scores[h])
  {
    var blocks, off, len := Blocks(names, scores), RowCount(scores[..h]), |scores[h]| + 1;
    BlockAt(names, scores, h);
    BlocksLength(names, scores);
    assert LedgerOf(names, scores) == blocks + [LedgerRow("Overall", Total, Totals(scores))];
    assert (blocks + [LedgerRow("Overall", Total, Totals(scores))])[off..off + len] == blocks[off..off + len];
  }

  /** Inside the ledger, horizon `h` has one row per increment, labelled 1..
      in order, then a `Total` row equal to the sum of those rows. */
  lemma LedgerOfHorizon(names: seq<string>, scores: seq<seq<real>>, h: nat)
    requires |names| == |scores| && h < |scores|
    ensures var off, n, ledger := RowCount(scores[..h]), |scores[h]|, LedgerOf(names, scores);
            && off + n + 1 < |ledger|
            && (forall t :: 0 <= t < n ==> ledger[off + t] == LedgerRow(names[h], Index(t + 1), scores[h][t]))
            && ledger[off + n] == LedgerRow(names[h], Total, Sum(scores[h]))
            && ledger[off + n].crps == Sum(CrpsOf(ledger[off..off + n]))
  {
    var off, n, ledger := RowCount(scores[..h]), |scores[h]|, LedgerOf(names, scores);
    var rows := IncrementRows(names[h], scores[h]);
    var block := HorizonBlock(names[h], scores[h]);
    LedgerBlock(names, scores, h);
    assert block[..n] == rows;
    assert ledger[off..off + n] == rows by {
      assert ledger[off..off + n] == ledger[off..off + n + 1][..n];
    }
    assert ledger[off + n] == block[n] by {
      assert ledger[off + n] == ledger[off..off + n + 1][n];
    }
    RowsAt(ledger, off, rows);
    IncrementRowsCrps(names[h], scores[h]);
  }

  /** The inputs of one evaluation, with the two foreign computations. */
  datatype Scoring = Scoring(runs: Matrix, realPath: seq<real>, timeIncrement: int,
                             changes: PriceChanges, crps: EnsembleScore)

  /** What the scorer needs of its inputs for a horizon of `seconds`: a
      non-zero increment, and the change transform keeping its shape contract. */
  predicate ShapedAt(s: Scoring, seconds: nat) {
    s.timeIncrement != 0 && ChangesShaped(s.changes, s.runs, s.realPath, IntervalSteps(seconds, s.timeIncrement))
  }

  /** The same at every scoring horizon. */
  predicate Shaped(s: Scoring) {
    forall h :: 0 <= h < |ScoringIntervals| ==> ShapedAt(s, ScoringIntervals[h].1)
  }

  /** The simulated change series of a horizon: one per run, all of one length. */
  function SimulatedChanges(s: Scoring, seconds: nat): (m: Matrix)
    requires ShapedAt(s, seconds)
    ensures WellFormed(m) && |m.rows| == |s.runs.rows|
  {
    s.changes(s.runs, IntervalSteps(seconds, s.timeIncrement))
  }

  /** The real change series of a horizon: as long as each simulated one. */
  function RealChanges(s: Scoring, seconds: nat): (c: seq<real>)
    requires ShapedAt(s, seconds)
    ensures |c| == SimulatedChanges(s, seconds).cols
  {
    var m := s.changes(Reshape(s.realPath), IntervalSteps(seconds, s.timeIncrement));
    assert m.rows[0] in m.rows;
    m.rows[0]
  }

  /** The score of every increment of one horizon: the observed change of
      increment `t` scored against column `t` of the simulated changes. */
  function IncrementScores(simulated: Matrix, observed: seq<real>, crps: EnsembleScore): (scores: seq<real>)
    requires WellFormed(simulated) && |observed| == simulated.cols
    ensures |scores| == simulated.cols
  {
    seq(simulated.cols, t requires 0 <= t < simulated.cols => crps(observed[t], Column(simulated, t)))
  }

  /** The scores of the horizon of `seconds`. */
  function IntervalScores(s: Scoring, seconds: nat): seq<real>
    requires ShapedAt(s, seconds)
  {
    IncrementScores(SimulatedChanges(s, seconds), RealChanges(s, seconds), s.crps)
  }

  /** The scores of all horizons, in processing order. */
  function HorizonScores(s: Scoring): (scores: seq<seq<real>>)
    requires Shaped(s)
    ensures |scores| == |ScoringIntervals|
    ensures forall h :: 0 <= h < |ScoringIntervals| ==> scores[h] == IntervalScores(s, ScoringIntervals[h].1)
  {
    seq(|ScoringIntervals|, h requires 0 <= h < |ScoringIntervals| => IntervalScores(s, ScoringIntervals[h].1))
  }

  /** The horizon labels, in processing order. */
  function IntervalNames(): (names: seq<string>)
    ensures |names| == |ScoringIntervals|
    ensures forall h :: 0 <= h < |names| ==> names[h] == ScoringIntervals[h].0
  {
    seq(|ScoringIntervals|, h requires 0 <= h < |ScoringIntervals| => ScoringIntervals[h].0)
  }

  /** With four horizons, the `Overall` total is the sum of the four
      horizon totals. */
  lemma {:induction false} TotalsOfFour(scores: seq<seq<real>>)
    requires |scores| == 4
    ensures Totals(scores) == Sum(scores[0]) + Sum(scores[1]) + Sum(scores[2]) + Sum(scores[3])
  {
    var s1, s2, s3 := scores[..1], scores[..2], scores[..3];
    assert s1[..0] == [];
    assert Totals(s1) == Sum(scores[0]);
    assert s2[..1] == s1;
    assert Totals(s2) == Totals(s1) + Sum(scores[1]);
    assert s3[..2] == s2;
    assert Totals(s3) == Totals(s2) + Sum(scores[2]);
    assert scores[..3] == s3;
  }

  /** The inner loop of `calculate_crps_for_miner`: starts from a run of
      zeros, overwrites entry `t` with the score of increment `t`, and appends
      one ledger row per increment to `ledger`. */
  method ScoreIncrements(intervalName: string, simulatedChanges: Matrix, realChanges: seq<real>,
                         crps: EnsembleScore, ledger: seq<LedgerRow>)
    returns (crpsValues: seq<real>, extended: seq<LedgerRow>)
    requires WellFormed(simulatedChanges) && |realChanges| == simulatedChanges.cols
    ensures crpsValues == IncrementScores(simulatedChanges, realChanges, crps)
    ensures extended == ledger + IncrementRows(intervalName, crpsValues)
  {
    ghost var scores := IncrementScores(simulatedChanges, realChanges, crps);
    var numIntervals := simulatedChanges.cols;
    crpsValues := seq(numIntervals, _ => 0.0);
    extended := ledger;
    var t := 0;
    while t < numIntervals
      invariant 0 <= t <= numIntervals && |crpsValues| == numIntervals
      invariant forall k :: 0 <= k < t ==> crpsValues[k] == scores[k]
      invariant extended == ledger + IncrementRows(intervalName, scores[..t])
    {
      var forecasts := Column(simulatedChanges, t);
      var observation := realChanges[t];
      crpsValues := crpsValues[t := crps(observation, forecasts)];
      assert crpsValues[t] == scores[t];
      AppendIncrementRow(ledger, intervalName, scores, t);
      extended := extended + [LedgerRow(intervalName, Index(t + 1), crpsValues[t])];
      t := t + 1;
    }
    assert crpsValues == scores;
    assert scores[..numIntervals] == scores;
  }

  /** One pass of the outer loop of `calculate_crps_for_miner`: scores every
      increment of the horizon of `intervalSeconds` and appends its rows and
      its `Total` row to `ledger`. */
  method ScoreHorizon(s: Scoring, intervalName: string, intervalSeconds: nat, ledger: seq<LedgerRow>)
    returns (totalCrpsInterval: real, extended: seq<LedgerRow>)
    requires ShapedAt(s, intervalSeconds)
    ensures totalCrpsInterval == Sum(IntervalScores(s, intervalSeconds))
    ensures extended == ledger + HorizonBlock(intervalName, IntervalScores(s, intervalSeconds))
  {
    var intervalSteps := IntervalSteps(intervalSeconds, s.timeIncrement);
    var simulatedChanges := s.changes(s.runs, intervalSteps);
    var realChanges := s.changes(Reshape(s.realPath), intervalSteps).rows[0];
    assert simulatedChanges == SimulatedChanges(s, intervalSeconds) && realChanges == RealChanges(s, intervalSeconds);
    var crpsValues;
    crpsValues, extended := ScoreIncrements(intervalName, simulatedChanges, realChanges, s.crps, ledger);
    totalCrpsInterval := Sum(crpsValues);
    extended := extended + [LedgerRow(intervalName, Total, totalCrpsInterval)];
  }

  /** `calculate_crps_for_miner`: builds the ledger row by row, horizon by
      horizon, and returns the grand total, which is the `Overall` row. */
  method CalculateCrpsForMiner(simulationRuns: Matrix, realPricePath: seq<real>, timeIncrement: int,
                               changes: PriceChanges, crps: EnsembleScore)
    returns (sumAllScores: real, detailedCrpsData: seq<LedgerRow>)
    requires Shaped(Scoring(simulationRuns, realPricePath, timeIncrement, changes, crps))
    ensures detailedCrpsData ==
            LedgerOf(IntervalNames(), HorizonScores(Scoring(simulationRuns, realPricePath, timeIncrement, changes, crps)))
    ensures sumAllScores == detailedCrpsData[|detailedCrpsData| - 1].crps
  {
    var s := Scoring(simulationRuns, realPricePath, timeIncrement, changes, crps);
    ghost var all := HorizonScores(s);
    ghost var names := IntervalNames();
    detailedCrpsData := [];
    sumAllScores := 0.0;
    var i := 0;
    while i < |ScoringIntervals|
      invariant 0 <= i <= |ScoringIntervals|
      invariant detailedCrpsData == Blocks(names[..i], all[..i])
      invariant sumAllScores == Totals(all[..i])
    {
      var intervalName, intervalSeconds := ScoringIntervals[i].0, ScoringIntervals[i].1;
      var totalCrpsInterval;
      totalCrpsInterval, detailedCrpsData := ScoreHorizon(s, intervalName, intervalSeconds, detailedCrpsData);
      sumAllScores := sumAllScores + totalCrpsInterval;
      BlocksSnoc(names, all, i);
      i := i + 1;
    }
    assert names[..i] == names && all[..i] == all;
    BlocksLength(names, all);
    detailedCrpsData := detailedCrpsData + [LedgerRow("Overall", Total, sumAllScores)];
  }
}
