/** The per-miner forecast store of the validator and the rule that picks,
    for one miner and one evaluation time, the stored prediction to score
    (simulation/validator/miner_data_handler.py).

    Times are integer seconds. The two database tables are sequences of rows
    in insertion order; a failed transaction is a `fails` parameter. */
module MinerData {

  datatype Option<T> = None | Some(value: T)

  /** Seconds in a day. */
  const Day: int := 86400
  /** A row is only considered while its validation time is at most this old. */
  const Lookback: int := 5 * Day

  datatype PricePoint = PricePoint(time: int, price: real)

  /** One predicted price path: a non-empty sequence of points. */
  type Prediction = p: seq<PricePoint> | |p| > 0 witness [PricePoint(0, 0.0)]

  /** Time of the last point of a prediction: the key the selector orders by. */
  function EndTime(p: Prediction): int {
    p[|p| - 1].time
  }

  /** A row of the `miner_predictions` table. */
  datatype PredictionRow = PredictionRow(minerUid: int, validationTime: int, prediction: Prediction)

  /** Which filter the selector applies: the one the query states, or the
      one its tests expect, which also drops predictions that end after the
      evaluation time. */
  datatype Rule = AsQueried | AsTested

  /** The query's WHERE clause: the row belongs to the miner and its
      validation time lies in [now - 5 days, now]. */
  predicate InWindow(row: PredictionRow, minerUid: int, now: int) {
    row.minerUid == minerUid && now - Lookback <= row.validationTime <= now
  }

  /** The prediction's last point is not after the evaluation time. */
  predicate Matured(row: PredictionRow, now: int) {
    EndTime(row.prediction) <= now
  }

  predicate Eligible(rule: Rule, row: PredictionRow, minerUid: int, now: int) {
    InWindow(row, minerUid, now) && (rule == AsTested ==> Matured(row, now))
  }

  /** The rows the filter keeps. They stay in storage order, which
      `CandidatesAppend` states one stored row at a time. */
  function Candidates(rule: Rule, rows: seq<PredictionRow>, minerUid: int, now: int): (c: seq<PredictionRow>)
    ensures |c| <= |rows|
    ensures forall r :: r in c <==> r in rows && Eligible(rule, r, minerUid, now)
  {
    if rows == [] then []
    else
      var init := Candidates(rule, rows[..|rows| - 1], minerUid, now);
      var last := rows[|rows| - 1];
      assert rows == rows[..|rows| - 1] + [last];
      if Eligible(rule, last, minerUid, now) then init + [last] else init
  }

  /** Index of the candidate whose prediction ends latest; on a tie, the one
      stored last. */
  function Latest(c: seq<PredictionRow>): (k: nat)
    requires |c| > 0
    ensures k < |c|
    ensures forall j :: 0 <= j < |c| ==> EndTime(c[j].prediction) <= EndTime(c[k].prediction)
    ensures forall j :: k < j < |c| ==> EndTime(c[j].prediction) < EndTime(c[k].prediction)
  {
    if |c| == 1 then 0
    else
      var k := Latest(c[..|c| - 1]);
      if EndTime(c[|c| - 1].prediction) >= EndTime(c[k].prediction) then |c| - 1 else k
  }

  /** The row `get_values` reads: filter, order by end time (latest first),
      take the first one. */
  function Select(rule: Rule, rows: seq<PredictionRow>, minerUid: int, now: int): (res: Option<PredictionRow>)
    ensures res.None? <==> forall r :: r in rows ==> !Eligible(rule, r, minerUid, now)
    ensures res.Some? ==> res.value in rows && Eligible(rule, res.value, minerUid, now)
    ensures res.Some? ==> forall r :: r in rows && Eligible(rule, r, minerUid, now) ==>
                            EndTime(r.prediction) <= EndTime(res.value.prediction)
  {
    var c := Candidates(rule, rows, minerUid, now);
    if c == [] then None
    else
      assert c[0] in c;
      Some(c[Latest(c)])
  }

  /** `get_values`: the selected prediction, unchanged, or `[]` when no row
      qualifies. */
  function GetValues(rule: Rule, rows: seq<PredictionRow>, minerUid: int, now: int): (values: seq<PricePoint>)
    ensures values == [] <==> forall r :: r in rows ==> !Eligible(rule, r, minerUid, now)
    ensures values != [] ==>
              exists r :: r in rows && Eligible(rule, r, minerUid, now) && r.prediction == values &&
                          forall r' :: r' in rows && Eligible(rule, r', minerUid, now) ==>
                                         EndTime(r'.prediction) <= EndTime(r.prediction)
  {
    match Select(rule, rows, minerUid, now)
    case None => []
    case Some(row) => row.prediction
  }

  /** Appending one row adds it to the candidates exactly when it qualifies. */
  lemma CandidatesAppend(rule: Rule, rows: seq<PredictionRow>, row: PredictionRow, minerUid: int, now: int)
    ensures Candidates(rule, rows + [row], minerUid, now) ==
            Candidates(rule, rows, minerUid, now) + if Eligible(rule, row, minerUid, now) then [row] else []
  {
    var all := rows + [row];
    assert all[..|all| - 1] == rows;
  }

  /** Appending one row changes the selection exactly when that row qualifies
      and ends no earlier than the current pick. */
  lemma SelectAppend(rule: Rule, rows: seq<PredictionRow>, row: PredictionRow, minerUid: int, now: int)
    ensures var before := Select(rule, rows, minerUid, now);
            Select(rule, rows + [row], minerUid, now) ==
              if Eligible(rule, row, minerUid, now) &&
                 (before.None? || EndTime(before.value.prediction) <= EndTime(row.prediction))
              then Some(row) else before
  {
    CandidatesAppend(rule, rows, row, minerUid, now);
    var c := Candidates(rule, rows, minerUid, now);
    if Eligible(rule, row, minerUid, now) && c != [] {
      var c' := c + [row];
      assert c'[..|c'| - 1] == c;
    }
  }

  /** A row stored last, qualifying and ending no earlier than any other
      qualifying row, is read back exactly. */
  lemma AppendedIsReadBack(rule: Rule, rows: seq<PredictionRow>, row: PredictionRow, minerUid: int, now: int)
    requires Eligible(rule, row, minerUid, now)
    requires forall r :: r in rows && Eligible(rule, r, minerUid, now) ==> EndTime(r.prediction) <= EndTime(row.prediction)
    ensures GetValues(rule, rows + [row], minerUid, now) == row.prediction
  {
    SelectAppend(rule, rows, row, minerUid, now);
  }

  /** The tie-free part of `AppendedIsReadBack`: whichever maximal row the
      database returns, its prediction ends when the appended row's does. */
  lemma AppendedEndsLatest(rule: Rule, rows: seq<PredictionRow>, row: PredictionRow, minerUid: int, now: int)
    requires Eligible(rule, row, minerUid, now)
    requires forall r :: r in rows && Eligible(rule, r, minerUid, now) ==> EndTime(r.prediction) <= EndTime(row.prediction)
    ensures GetValues(rule, rows + [row], minerUid, now) != []
    ensures EndTime(GetValues(rule, rows + [row], minerUid, now)) == EndTime(row.prediction)
  {
    assert row in rows + [row];
  }

  /** A miner with no stored rows gets `[]`, whatever the time and rule. */
  lemma NoDataForMiner(rule: Rule, rows: seq<PredictionRow>, minerUid: int, now: int)
    requires forall r :: r in rows ==> r.minerUid != minerUid
    ensures GetValues(rule, rows, minerUid, now) == []
  {
  }

  /** The test-side rule only narrows the query: whatever it picks the query
      admits too, and it ends no later than the query's pick. */
  lemma TestedPickAdmittedByQuery(rows: seq<PredictionRow>, minerUid: int, now: int)
    ensures Select(AsTested, rows, minerUid, now).Some? ==>
              Eligible(AsQueried, Select(AsTested, rows, minerUid, now).value, minerUid, now) &&
              Select(AsQueried, rows, minerUid, now).Some? &&
              EndTime(Select(AsTested, rows, minerUid, now).value.prediction)
                <= EndTime(Select(AsQueried, rows, minerUid, now).value.prediction)
  {
  }

  /** The tie-free part of `TestedAgreesWithMaturedQuery`: when the query's
      pick has matured, the test rule picks a row ending at the same time. */
  lemma MaturedQueryEndsAsTested(rows: seq<PredictionRow>, minerUid: int, now: int)
    requires Select(AsQueried, rows, minerUid, now).Some?
    requires Matured(Select(AsQueried, rows, minerUid, now).value, now)
    ensures Select(AsTested, rows, minerUid, now).Some?
    ensures EndTime(Select(AsTested, rows, minerUid, now).value.prediction)
              == EndTime(Select(AsQueried, rows, minerUid, now).value.prediction)
  {
  }

  /** When the query's own pick has matured, both rules pick the same row.
      This relies on both using the stored-last tie-break of `Latest`. */
  lemma {:induction false} TestedAgreesWithMaturedQuery(rows: seq<PredictionRow>, minerUid: int, now: int)
    requires Select(AsQueried, rows, minerUid, now).Some?
    requires Matured(Select(AsQueried, rows, minerUid, now).value, now)
    ensures Select(AsTested, rows, minerUid, now) == Select(AsQueried, rows, minerUid, now)
  {
    var init, x := rows[..|rows| - 1], rows[|rows| - 1];
    assert rows == init + [x];
    SelectAppend(AsQueried, init, x, minerUid, now);
    SelectAppend(AsTested, init, x, minerUid, now);
    var q := Select(AsQueried, init, minerUid, now);
    if q.Some? && Matured(q.value, now) {
      TestedAgreesWithMaturedQuery(init, minerUid, now);
    }
  }

  // The scenarios of tests/test_miner_data_handler.py, with
  // 2024-11-20T00:00:00 as 1732060800 seconds.

  const Nov20: int := 1732060800
  const Hour: int := 3600
  /** Spacing of the generated test paths: five minutes. */
  const Cadence: int := 300
  const TestMiner: int := 123

  /** A path of points five minutes apart from `start`, with the given prices. */
  function Generated(start: int, prices: seq<real>): (p: Prediction)
    requires |prices| > 0
    ensures |p| == |prices|
    ensures forall i :: 0 <= i < |p| ==> p[i] == PricePoint(start + i * Cadence, prices[i])
  {
    seq(|prices|, i requires 0 <= i < |prices| => PricePoint(start + i * Cadence, prices[i]))
  }

  /** One day of predictions read two days later: all 288 points come back,
      first and last intact. */
  lemma WithinRange(rule: Rule, prices: seq<real>)
    requires |prices| == 288
    ensures var p := Generated(Nov20, prices);
            var got := GetValues(rule, [PredictionRow(TestMiner, Nov20, p)], TestMiner, Nov20 + 2 * Day);
            got == p && |got| == 288 &&
            got[0] == PricePoint(Nov20, prices[0]) &&
            got[287] == PricePoint(Nov20 + 23 * Hour + 55 * 60, prices[287])
  {
    var p := Generated(Nov20, prices);
    AppendedIsReadBack(rule, [], PredictionRow(TestMiner, Nov20, p), TestMiner, Nov20 + 2 * Day);
  }

  /** Ten days later the row is outside the five-day window. */
  lemma ExceedingRange(rule: Rule, prices: seq<real>)
    requires |prices| == 288
    ensures GetValues(rule, [PredictionRow(TestMiner, Nov20, Generated(Nov20, prices))], TestMiner, Nov20 + 10 * Day) == []
  {
  }

  /** As queried, a prediction still running at the evaluation time is
      returned. */
  lemma OngoingRangeAsQueried(prices: seq<real>)
    requires |prices| == 288
    ensures var p := Generated(Nov20, prices);
            GetValues(AsQueried, [PredictionRow(TestMiner, Nov20, p)], TestMiner, Nov20 + 12 * Hour) == p
  {
    var p := Generated(Nov20, prices);
    AppendedIsReadBack(AsQueried, [], PredictionRow(TestMiner, Nov20, p), TestMiner, Nov20 + 12 * Hour);
  }

  /** With the maturity condition, the running prediction gives `[]`. */
  lemma OngoingRangeAsTested(prices: seq<real>)
    requires |prices| == 288
    ensures GetValues(AsTested, [PredictionRow(TestMiner, Nov20, Generated(Nov20, prices))], TestMiner, Nov20 + 12 * Hour) == []
  {
  }

  /** Two matured records: the later-ending one wins under either rule. */
  lemma MultipleRecords(rule: Rule, prices1: seq<real>, prices2: seq<real>)
    requires |prices1| == 288 && |prices2| == 288
    ensures var p2 := Generated(Nov20 + 12 * Hour, prices2);
            var rows := [PredictionRow(TestMiner, Nov20, Generated(Nov20, prices1)),
                         PredictionRow(TestMiner, Nov20 + 12 * Hour, p2)];
            GetValues(rule, rows, TestMiner, Nov20 + Day + 15 * Hour) == p2
  {
    var r1 := PredictionRow(TestMiner, Nov20, Generated(Nov20, prices1));
    var r2 := PredictionRow(TestMiner, Nov20 + 12 * Hour, Generated(Nov20 + 12 * Hour, prices2));
    assert [r1, r2] == [r1] + [r2];
    AppendedIsReadBack(rule, [r1], r2, TestMiner, Nov20 + Day + 15 * Hour);
  }

  /** Overlapping records, as queried: the second, still running, is picked. */
  lemma OverlappingAsQueried(prices1: seq<real>, prices2: seq<real>)
    requires |prices1| == 288 && |prices2| == 288
    ensures var p2 := Generated(Nov20 + 12 * Hour, prices2);
            var rows := [PredictionRow(TestMiner, Nov20, Generated(Nov20, prices1)),
                         PredictionRow(TestMiner, Nov20 + 12 * Hour, p2)];
            GetValues(AsQueried, rows, TestMiner, Nov20 + Day + 3 * Hour) == p2
  {
    var r1 := PredictionRow(TestMiner, Nov20, Generated(Nov20, prices1));
    var r2 := PredictionRow(TestMiner, Nov20 + 12 * Hour, Generated(Nov20 + 12 * Hour, prices2));
    assert [r1, r2] == [r1] + [r2];
    AppendedIsReadBack(AsQueried, [r1], r2, TestMiner, Nov20 + Day + 3 * Hour);
  }

  /** Overlapping records, with the maturity condition: the first, already
      finished, is picked. */
  lemma OverlappingAsTested(prices1: seq<real>, prices2: seq<real>)
    requires |prices1| == 288 && |prices2| == 288
    ensures var p1 := Generated(Nov20, prices1);
            var rows := [PredictionRow(TestMiner, Nov20, p1),
                         PredictionRow(TestMiner, Nov20 + 12 * Hour, Generated(Nov20 + 12 * Hour, prices2))];
            GetValues(AsTested, rows, TestMiner, Nov20 + Day + 3 * Hour) == p1
  {
    var r1 := PredictionRow(TestMiner, Nov20, Generated(Nov20, prices1));
    var r2 := PredictionRow(TestMiner, Nov20 + 12 * Hour, Generated(Nov20 + 12 * Hour, prices2));
    assert [r1, r2] == [r1] + [r2];
    SelectAppend(AsTested, [r1], r2, TestMiner, Nov20 + Day + 3 * Hour);
    AppendedIsReadBack(AsTested, [], r1, TestMiner, Nov20 + Day + 3 * Hour);
    assert [] + [r1] == [r1];
  }

  /** What a caller hands to `set_reward_details` for one miner; the three
      JSON payloads are stored verbatim, so their type is a parameter. */
  datatype RewardInput<J> = RewardInput(minerUid: int, score: real, softmaxScore: real,
                                        crpsData: J, realPrices: J, predictions: J)

  datatype RewardDetails<J> = RewardDetails(score: real, softmaxScore: real, crpsData: J)

  /** A row of the `miner_rewards` table. */
  datatype RewardRow<J> = RewardRow(minerUid: int, validationTime: int, startTime: int,
                                    rewardDetails: RewardDetails<J>, reward: real,
                                    realPrices: J, prediction: J)

  /** The input a reward row was built from. */
  function RewardInputOf<J>(row: RewardRow<J>): RewardInput<J> {
    RewardInput(row.minerUid, row.rewardDetails.score, row.rewardDetails.softmaxScore,
                row.rewardDetails.crpsData, row.realPrices, row.prediction)
  }

  /** One reward row: nothing of the input is lost, the times are the call's,
      and the reward is the softmax score. */
  function RewardRowFor<J>(d: RewardInput<J>, validationTime: int, startTime: int): (row: RewardRow<J>)
    ensures RewardInputOf(row) == d
    ensures row.validationTime == validationTime && row.startTime == startTime
    ensures row.reward == d.softmaxScore == row.rewardDetails.softmaxScore
  {
    RewardRow(d.minerUid, validationTime, startTime,
              RewardDetails(d.score, d.softmaxScore, d.crpsData),
              d.softmaxScore, d.realPrices, d.predictions)
  }

  /** The rows `set_reward_details` inserts: one per input, in input order. */
  function RewardRows<J>(details: seq<RewardInput<J>>, validationTime: int, startTime: int): (rows: seq<RewardRow<J>>)
    ensures |rows| == |details|
    ensures forall i :: 0 <= i < |rows| ==>
              RewardInputOf(rows[i]) == details[i] && rows[i].reward == details[i].softmaxScore &&
              rows[i].validationTime == validationTime && rows[i].startTime == startTime
  {
    seq(|details|, i requires 0 <= i < |details| => RewardRowFor(details[i], validationTime, startTime))
  }

  /** The two tables behind the handler. */
  class MinerDataHandler<J> {
    var predictions: seq<PredictionRow>
    var rewards: seq<RewardRow<J>>

    constructor ()
      ensures predictions == [] && rewards == []
    {
      predictions, rewards := [], [];
    }

    /** `set_values`: append one prediction row; on a failed transaction
        nothing is stored and no error reaches the caller. */
    method SetValues(minerUid: int, validationTime: int, values: Prediction, fails: bool)
      modifies this
      ensures rewards == old(rewards)
      ensures predictions == if fails then old(predictions)
                             else old(predictions) + [PredictionRow(minerUid, validationTime, values)]
    {
      if !fails {
        predictions := predictions + [PredictionRow(minerUid, validationTime, values)];
      }
    }

    /** `set_reward_details`: insert all the rows or, after a rollback, none. */
    method SetRewardDetails(details: seq<RewardInput<J>>, validationTime: int, startTime: int, fails: bool)
      modifies this
      ensures predictions == old(predictions)
      ensures rewards == if fails then old(rewards)
                         else old(rewards) + RewardRows(details, validationTime, startTime)
    {
      var rows := RewardRows(details, validationTime, startTime);
      if !fails {
        rewards := rewards + rows;
      }
    }
  }

  /** A prediction stored through a fresh handler is read back unchanged once
      it has matured, while its validation time is in the window. */
  method StoreThenRead(minerUid: int, validationTime: int, values: Prediction, now: int) returns (got: seq<PricePoint>)
    requires now - Lookback <= validationTime <= now
    requires EndTime(values) <= now
    ensures got == values
  {
    var handler := new MinerDataHandler<int>();
    handler.SetValues(minerUid, validationTime, values, false);
    AppendedIsReadBack(AsTested, [], PredictionRow(minerUid, validationTime, values), minerUid, now);
    assert handler.predictions == [] + [PredictionRow(minerUid, validationTime, values)];
    got := GetValues(AsTested, handler.predictions, minerUid, now);
  }
}
