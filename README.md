# Validator forecast store and CRPS ledger, in Dafny

This project models two sequential parts of the simulation validator.

**The per-miner forecast store** (`simulation/validator/miner_data_handler.py`, module `MinerData`, file `miner_data.dfy`).
- `set_values` appends one `(miner_uid, validation_time, prediction)` row to the predictions table.
- `set_reward_details` turns a list of reward records into rows. It inserts all of them, or none after a rollback.
- `get_values` picks at most one stored prediction for a miner at an evaluation time. It keeps the miner's rows whose validation time lies in `[now − 5 days, now]`, orders them by the time of the prediction's last point (latest first) and returns the first, or `[]`.
- The tables are sequences of records held by the class `MinerDataHandler`. `get_values` is a pure function over those sequences.
- Timestamps are integer seconds. A prediction is a non-empty sequence of `(time, price)` points.

The selector is modelled under two rules:
- `AsQueried` is the filter exactly as the query states it.
- `AsTested` adds the condition the unit tests rely on: the prediction's last point is not after the evaluation time.

The two rules disagree on the "ongoing" and "overlapping" tests (see "## Findings"). `TestedAgreesWithMaturedQuery` proves they agree whenever the query's own pick has matured.

**The multi-horizon CRPS ledger** (`calculate_crps_for_miner` in `simulation/validator/crps_calculation.py`, module `CrpsCalculation`, file `crps_calculation.dfy`).
- The method walks the four horizons 5min, 30min, 3hour and 24hour, in that order.
- For each horizon it:
  - computes the step count by truncating division;
  - obtains the simulated and real change series;
  - scores every increment with the ensemble CRPS;
  - appends one ledger row per increment and one `Total` row.
- It ends with an `Overall`/`Total` row and returns the grand sum.
- The ensemble CRPS and the change transform are function-valued parameters. The transform is known only through its shape contract (`ChangesShaped`): a runs-by-k matrix for the runs, and one series of the same k for the real path.
- Scores are exact reals.
- The ledger the method builds is specified by `LedgerOf` over the per-horizon scores (`HorizonScores`). The lemmas about `LedgerOf` give its length, the position and contents of each horizon's block, and the sums.

Notes on the source:
- `get_values` sits at module level under a stray `@staticmethod` (miner_data_handler.py:59-60), yet the tests call it on a handler instance. The model treats it as the handler's read operation over its predictions table.
- `desc`, `func` and `DateTime`, used in the ordering clause (miner_data_handler.py:70), are never imported. The model takes the evident meaning: descending by the last point's time.
- The docstring speaks of "the longest valid interval". The query actually orders by the end time of the prediction, and that is what is modelled.
- `ORDER BY … LIMIT 1` has no tie-break. The model fixes one: among candidates ending at the same time, the one stored last wins (`Latest`). Four statements rely on that choice: the third ensures of `Latest`, the tie case of `SelectAppend`, `AppendedIsReadBack` and `TestedAgreesWithMaturedQuery`. `AppendedEndsLatest` and `MaturedQueryEndsAsTested` state the last two up to end time, which holds whichever maximal candidate the database returns.
- `calculate_crps_for_miner` never reads its `time_length` parameter. It uses `miner_id`, `day` and `output_dir` only to name the CSV file. None of the four is modelled.

## Model

| member | source | states |
|---|---|---|
| MinerData.Candidates | simulation/validator/miner_data_handler.py:66-69 | a row is a candidate exactly when it is stored, belongs to the miner, has its validation time in the five-day window and (under the test rule) has matured |
| MinerData.Latest | simulation/validator/miner_data_handler.py:70 | the chosen candidate's last point is at least as late as every other candidate's; every candidate stored after it ends strictly earlier |
| MinerData.Select | simulation/validator/miner_data_handler.py:62-79 | nothing is selected iff no stored row qualifies; a selected row is stored, qualifies, and ends no earlier than any qualifying row |
| MinerData.GetValues | simulation/validator/miner_data_handler.py:62-79 | the result is `[]` iff no row qualifies; otherwise it is the unchanged prediction of a stored, qualifying row with the latest end time |
| MinerData.CandidatesAppend | simulation/validator/miner_data_handler.py:66-69 | storing one more row adds it to the end of the candidates exactly when it qualifies |
| MinerData.SelectAppend | simulation/validator/miner_data_handler.py:66-79 | storing one more row changes the pick to that row exactly when it qualifies and ends no earlier than the previous pick; otherwise the pick is unchanged |
| MinerData.AppendedIsReadBack | simulation/validator/miner_data_handler.py:70-79 | a qualifying row stored last that ends no earlier than any qualifying row is read back verbatim |
| MinerData.AppendedEndsLatest | simulation/validator/miner_data_handler.py:70-79 | for such a row, the prediction read back is non-empty and ends when the row's does |
| MinerData.NoDataForMiner | simulation/validator/miner_data_handler.py:76-77 | a miner with no stored rows gets `[]` at any time, under either rule |
| MinerData.TestedAgreesWithMaturedQuery | simulation/validator/miner_data_handler.py:66-70 | when the query's pick has matured, the test rule picks the same row |
| MinerData.TestedPickAdmittedByQuery | simulation/validator/miner_data_handler.py:66-70 | a row the test rule picks is one the query admits, and the query then has a pick that ends no earlier |
| MinerData.MaturedQueryEndsAsTested | simulation/validator/miner_data_handler.py:66-70 | when the query's pick has matured, the test rule has a pick and it ends at the same time |
| MinerData.WithinRange | tests/test_miner_data_handler.py:14-34 | one day of 288 points stored at 2024-11-20 and read on 2024-11-22 comes back whole, first and last points intact |
| MinerData.ExceedingRange | tests/test_miner_data_handler.py:36-53 | read ten days later, the same row is outside the window and the result is `[]` |
| MinerData.OngoingRangeAsQueried | simulation/validator/miner_data_handler.py:66-70 | as queried, a prediction still running at 12:00 on its first day is returned |
| MinerData.OngoingRangeAsTested | tests/test_miner_data_handler.py:55-72 | with the maturity condition, the running prediction gives `[]` |
| MinerData.MultipleRecords | tests/test_miner_data_handler.py:74-103 | with two matured records, the later-ending one (started 2024-11-20T12:00) is returned under either rule |
| MinerData.OverlappingAsQueried | simulation/validator/miner_data_handler.py:66-70 | as queried, with two overlapping records read at 2024-11-21T03:00, the still-running second one is returned |
| MinerData.OverlappingAsTested | tests/test_miner_data_handler.py:105-134 | with the maturity condition, the finished first record is returned |
| MinerData.Generated | tests/test_miner_data_handler.py:27 | a generated test path (from a helper not part of this model) has one point per price, five minutes apart from the start |
| MinerData.RewardRowFor | simulation/validator/miner_data_handler.py:35-47 | a reward row keeps every field of its input (uid, score, softmax score, CRPS data, real prices, predictions), carries the call's times, and its reward is the softmax score |
| MinerData.RewardRows | simulation/validator/miner_data_handler.py:34-49 | one reward row per input, in input order, each built from its input as above |
| MinerData.MinerDataHandler.SetValues | simulation/validator/miner_data_handler.py:11-30 | on success exactly one row with the given uid, time and prediction is appended and nothing else changes; on failure nothing changes |
| MinerData.MinerDataHandler.SetRewardDetails | simulation/validator/miner_data_handler.py:33-57 | on success all built rows are appended in order; after a rollback none are; the predictions table is untouched |
| MinerData.StoreThenRead | simulation/validator/miner_data_handler.py:11-30 | a prediction stored through a fresh handler, read in its window after it has matured, is returned unchanged |
| CrpsCalculation.Reshape | simulation/validator/crps_calculation.py:47 | the real path becomes a one-row matrix whose row is the path |
| CrpsCalculation.Column | simulation/validator/crps_calculation.py:53 | column `t` holds entry `t` of every run, in run order |
| CrpsCalculation.IntervalSteps | simulation/validator/crps_calculation.py:33-34 | the step count is the quotient truncated toward zero: its magnitude times the increment fits in the interval and one more does not, and its sign is the increment's |
| CrpsCalculation.IntervalStepsExamples | simulation/validator/crps_calculation.py:33-34 | 86400/300 gives 288, 10800/420 gives 25, 300/−60 gives −5 |
| CrpsCalculation.SumConcat | simulation/validator/crps_calculation.py:64-66 | the sum of two runs of scores concatenated is the sum of their sums |
| CrpsCalculation.IncrementRows | simulation/validator/crps_calculation.py:51-62 | one row per score, labelled with the horizon and increments 1, 2, … in order, carrying that score |
| CrpsCalculation.IncrementRowsCrps | simulation/validator/crps_calculation.py:57-62 | the scores read back from a horizon's increment rows are exactly its scores |
| CrpsCalculation.AppendIncrementRow | simulation/validator/crps_calculation.py:57-62 | appending the row of increment `t + 1` extends the rows of the first `t` scores to the rows of the first `t + 1` |
| CrpsCalculation.BlocksSnoc | simulation/validator/crps_calculation.py:42-73 | processing one more horizon appends its block after the earlier blocks and adds its total to the running sum |
| CrpsCalculation.TotalsIsSumOfAll | simulation/validator/crps_calculation.py:65-66 | the sum of the horizon totals equals the sum of every increment score, none omitted or repeated |
| CrpsCalculation.BlocksLength | simulation/validator/crps_calculation.py:51-73 | the horizon blocks take, per horizon, one row per increment plus its total row |
| CrpsCalculation.BlockAt | simulation/validator/crps_calculation.py:42-73 | horizon `h`'s block starts right after the rows of the horizons before it, in processing order |
| CrpsCalculation.LedgerOf | simulation/validator/crps_calculation.py:76-80 | the ledger has Σ(increments + 1) + 1 rows, and its last row is `Overall`/`Total` with the sum of every increment score |
| CrpsCalculation.LedgerBlock | simulation/validator/crps_calculation.py:42-80 | inside the full ledger, horizon `h`'s block sits at the offset given by the earlier horizons |
| CrpsCalculation.LedgerOfHorizon | simulation/validator/crps_calculation.py:50-73 | within horizon `h`'s block, row `t` is `(name, t + 1, score t)`, then exactly one `Total` row whose value equals the sum of the block's increment rows |
| CrpsCalculation.SimulatedChanges | simulation/validator/crps_calculation.py:46 | the simulated change series of a horizon form a well-formed matrix with one row per run |
| CrpsCalculation.RealChanges | simulation/validator/crps_calculation.py:47 | the real change series of a horizon has one entry per column of the simulated changes |
| CrpsCalculation.IncrementScores | simulation/validator/crps_calculation.py:50-55 | a horizon has one score per column of simulated changes, and score `t` is the ensemble CRPS of observed change `t` against column `t` of the simulated changes (its defining expression) |
| CrpsCalculation.HorizonScores | simulation/validator/crps_calculation.py:25-30 | there is one score list per scoring horizon, and entry `h` is the scores of the `h`-th horizon in the fixed order |
| CrpsCalculation.IntervalNames | simulation/validator/crps_calculation.py:25-30 | the ledger labels are the horizon names in the fixed order 5min, 30min, 3hour, 24hour |
| CrpsCalculation.TotalsOfFour | simulation/validator/crps_calculation.py:40-66 | with the four horizons, the overall total is the sum of the four horizon totals |
| CrpsCalculation.ScoreIncrements | simulation/validator/crps_calculation.py:50-62 | the score list is the CRPS of every increment, with the real change `t` scored against column `t` of the simulated changes; the ledger gains exactly that horizon's increment rows |
| CrpsCalculation.ScoreHorizon | simulation/validator/crps_calculation.py:43-73 | one horizon pass returns the sum of that horizon's scores and appends its increment rows and its `Total` row |
| CrpsCalculation.CalculateCrpsForMiner | simulation/validator/crps_calculation.py:8-93 | the ledger built is `LedgerOf` the four horizons' scores in processing order, and the value returned is the value of its last (`Overall`) row |

## Left out

- The SQLAlchemy engine, connections and transactions, and the `bittensor` logging. The tables are in-memory sequences. A database failure is the `fails` argument of `SetValues` and `SetRewardDetails`, which then leave the store unchanged. `SetValues` raises nothing, as in the source, where the whole connection block is inside the `try`.
- MinerData.MinerDataHandler.SetRewardDetails: in the source only the insert is caught (miner_data_handler.py:52-57). A failure to connect or to commit, raised by the `with engine.begin()` block at line 51, reaches the caller. So does a `KeyError` from a reward record missing a field, raised while the rows are built at lines 34-49. The model does not raise: the store stays unchanged in all these cases, as it does in the source, and its inputs are typed records, so a missing field cannot occur. For an empty `reward_details` the model appends nothing. What SQLAlchemy does with `insert().values([])` is not modelled.
- MinerData.GetValues: the database's choice among candidates that end at the same time is left open by the query. The model fixes it to the one stored last.
- MinerData.AppendedIsReadBack: exact read-back holds only under the stored-last tie-break. For any other choice among rows ending at the same time, only `AppendedEndsLatest` is promised.
- MinerData.TestedAgreesWithMaturedQuery: equality of the two picks holds only because both rules use the same stored-last tie-break. For any other choice, only `MaturedQueryEndsAsTested` is promised.
- MinerData.PredictionRow: the tests pass miner ids as strings (`"miner_123"`). Ids are integers here, and only equality matters.
- MinerData.Prediction: an empty prediction cannot be stored in the model. The source's behaviour for one is unspecified: its last element does not exist, and what the ordering then does depends on the database (PostgreSQL, for one, yields NULL and sorts it first in descending order).
- Naive `datetime.fromisoformat` parsing and time zones. All times are integer seconds.
- pandas DataFrame construction, CSV file naming and writing, and `os.path.join`. The rows the method writes are returned as `detailedCrpsData` instead of being written to a file.
- The internals of `properscoring.crps_ensemble`, a foreign library on floats. It is an arbitrary function parameter, so nothing is proved about its values.
- The internals of `calculate_price_changes_over_intervals`: `simulation/simulations/price_simulation.py` is not part of this model. Only its shape contract is assumed, as the requirement `Shaped` of `CalculateCrpsForMiner`.
- NumPy float arithmetic and `np.sum` rounding. Scores and sums are exact reals.
- CrpsCalculation.IntervalSteps: Python computes `int(a / b)` through float division. The model divides exactly, which agrees with the source for the four horizons and any increment within float precision.
- CrpsCalculation.CalculateCrpsForMiner: a zero `time_increment` raises `ZeroDivisionError` in the source. Here it is excluded by the requirement `Shaped`.
- CrpsCalculation.ScoreIncrements: `crps_values` is a NumPy array that is filled in place by index. The model uses a sequence updated index by index (`crpsValues[t := v]`), so array aliasing is not modelled. The array never leaves the function, so nothing observable depends on it.
- `simulation/simulation_input.py`: a configuration record with defaults and no logic. Its default start time depends on the clock.

## Findings

| source | as written | input that shows it | evidently intended | confidence | as-written member | corrected member |
|---|---|---|---|---|---|---|
| simulation/validator/miner_data_handler.py:66-70 | the filter does not require the prediction's last point to be at or before the evaluation time, so a prediction still running is returned | one 288-point row for miner 123 stored at 2024-11-20T00:00:00, read at 2024-11-20T12:00:00, returns the row | `[]`, as tests/test_miner_data_handler.py:55-72 expects | not executed | MinerData.OngoingRangeAsQueried | MinerData.OngoingRangeAsTested |
| simulation/validator/miner_data_handler.py:66-70 | with two overlapping rows, the one ending later is picked even though it has not finished | rows stored at 2024-11-20T00:00:00 and 2024-11-20T12:00:00, read at 2024-11-21T03:00:00, return the second | the first, finished row, as tests/test_miner_data_handler.py:105-134 expects | not executed | MinerData.OverlappingAsQueried | MinerData.OverlappingAsTested |
