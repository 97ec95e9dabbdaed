# Verified models of the trading system's accounting, delivery and evolution cores

This project models three cores of the trading system and proves what they promise.

* **Two backtest accounts.** The config gate (`cognitive/backtest_gate.py`) books one PnL per round
  trip; the strategy engine (`backtest/engine.py`) books signed cash flows. Both run a long/short flip
  over a sequence of decisions with slipped fills. Modules `Trades`, `BacktestGate`, `GateProperties`,
  `WalkForward`, `BacktestEngine`, `EngineProperties`, `Drawdown`, `Sharpe`; `Report` says what their
  read-outs mean in terms of sets, sums and exact quotients.
* **Delivery over Redis streams.** Consumers, dead-letter queue and event pipeline. `Delivery` is a
  state machine in which every Redis call is its own step, so a crash, a lost reply, a second worker
  or an operator can come between any two calls; `Consumer`, `Dlq` and `Pipeline` are the handlers as
  written, and the consumer's is proved to be a run of that machine. `Admission` says over whole runs
  which entries are processed and which rejected; `Poison`, `RecentKeys` and `Supervisor` cover
  always-failing entries, the dedup windows and the restart limiter.
* **The cognitive loop.** One append-only log with eviction, decide -> gate -> execute, attribution,
  proposals, governor, diff and validator. `Brain` says what each operation emits and changes,
  `BrainProperties` and `BrainRuns` prove invariants of whole runs, `Lineage` ties recorded decisions,
  attributions and observations back to the features and trades they came from, `CognitiveLoop` has
  the mutating class and ties each of its operations to `Brain`. `Config`, `Decision`, `Learning`, `Evolution`,
  `Governance`, `Challenger`, `Queue`, `Drift`, `ConfigDiff`, `EventStream` and `Distribution` are its
  parts.

Where a main operation is proved equal to a specification function, a second statement says what the
result is without that function: in exact arithmetic, sizes of sets, or the constants of the program.

`Rounding` defines `round(x, k)` as half-even rounding of a real number on the grid of `k` places.

## Modelling choices

* Money, prices and weights are reals. A price is positive; a slippage draw is a real in
  [0, 0.0005] (production draws are at least 0.0001, `Trades.ProductionDraws`), one per fill, given by
  an oracle indexed by the number of fills so far.
* What the agents make of the market is an arbitrary function of the price window and the news value
  of the bar (gate), or an arbitrary decision per bar (engine). Neither sees cash, as in the source.
* Redis ids of one stream are positions in it. `XACK`, `XAUTOCLAIM`, `HSET`, `INCR` have their
  server-side effect; a call may answer, fail before, or fail after that effect. The client sends a
  call once more when its reply is lost (`api/redis_client.py:38`), so an answered call, a publish
  and a write to the DLQ may also have been executed twice. A call that failed is executed before
  its caller goes on, or never.
* In `Delivery` any step may follow any other; in `Poison` the steps of one fault-free restart follow
  each other without a foreign step in between, everything else is arbitrary.
* Clocks, agent scores, trade grades, the square root, the decimal text of a number and the reading of
  strings as numbers are parameters. A decoded JSON number is a real; one of magnitude 2^1024 - 2^970 or more is an integer
  literal, which `float` cannot hold.

## What the proofs found

Where the code does not do what one would expect, the exact condition is a lemma.

* Slippage can leave *more* cash: after a short that loses more than the account, equity is negative
  and the dearer long does less harm. Decisions and draws that show it exist for every series with
  such a short (`GateProperties.SlippageCanHelp`). With no negative factor it never happens
  (`SlippageNeverHelps`), and a condition on prices alone suffices (`SlippageNeverHelpsOnPrices`).
* The engine picks the side of a fill from the sign of the traded quantity, so an account below zero
  fills the wrong way round: its buys fill below the price (`EngineProperties.OpeningFillIff`,
  `ClosingFillIff`, `RuinedBuyFillsLow`). While no trade leaves the account at or below zero, all fills
  go against the trader (`SolventRunFillsByDirection`).
* The one-pass drawdown equals its quadratic definition on a positive curve. When the last bar of an
  otherwise positive curve is below zero, it does so iff every bar before stood equally high
  (`Drawdown.FallPastZeroIff`); on any curve that starts above zero, iff it covers the fall of every
  negative bar from the lowest positive bar before it (`UnderstatedIff`). A run on which it
  understates is `GateProperties.RunIsUnderstated`.
* The gate's Sharpe ratio depends on the size of the account exactly where its absolute cut on the
  deviation falls between the two sizes and the ratio does not round to zero
  (`GateProperties.MetricsIgnoreAccountSize`); the engine's never does
  (`EngineProperties.ReportIgnoresAccountSize`).
* `DLQManager.replay` clears the record whatever `publish` returned, and clears the id in every
  stream: an event survives its replay iff the server executed the publish
  (`DeliveryProperties.ReplayConservesIff`), every cleared record is back on its stream iff in
  addition no second stream holds the id (`Dlq.ReplayKeepsEveryRecordIff`). An id returned is enough
  for the caller to know; `None` means lost only if the publish was not executed.
* A stream field that starts with `[` or `{` is deserialised, and a list or dict as schema version
  raises a `TypeError` outside every handler: the entry kills every worker that takes it and never
  reaches the DLQ (`DeliveryProperties.UnhashableNeverEnds`). Always-failing entries end in the DLQ iff
  none before them is of that kind (`Poison.AllEndIff`), and when it is the oldest pending entry,
  restarts change nothing any more (`RestartsAreBlocked`).
* The pipeline acknowledges after a republish that was never executed (the event is then lost), and
  has no reclaim: an entry whose dead-letter push raises, whose `retry_count` does not read as an
  integer, or whose delivery was lost, is pending for ever. The first two end the loop, and so does a
  raising broadcast of the dlq_event after the entry is settled
  (`Pipeline.EventPipeline.ProcessWithRetry`, `Strand`). An event is in exactly one place unless one of
  its writes was executed twice or although it raised; one replayed out of its DLQ still carries its
  retry count and gets exactly one attempt (`Pipeline.DrainedEvents`).
* `load_config` documents that it never raises; it does on bytes that are not UTF-8, on an integer
  setting too large for a float, and on a valid file whose `version` cannot be read as an integer
  (`Config.LoadIsSafe`). The model follows the code.
* `config_diff` does not see null leaves and writes dotted keys like nested ones
  (`ConfigDiff.NullLeavesVanish`, `DottedKeysAreMisread`). The diff is an exact patch iff the nulls match
  (`DiffIsAPatchIff`); without nulls, the written diff is a patch iff no *changed* path has a dotted
  key (`WrittenDiffRoundTrip`).
* `events(limit=0)` returns everything (`EventStream.Events`, `LimitIsKeptIff`).
* `assess_health` reports as `merged` the number of CONFIG_VERSION events; on the full history that is
  one more than the merges (`BrainRuns.OnlyMergesChangeBehaviour`).
* Default trace ids count *retained* events, so they repeat from the moment the log is full
  (`BrainRuns.DefaultTraceIdsCollideIff`).
* The tracker in memory sees the sign of the PnL, the stream its six-place rounding: over a whole run
  the tracker can be rebuilt from the stream iff no trade closed with less than half a micro-unit in
  the direction of a contribution (`BrainRuns.TrackerIsAFold`, `Learning.EventFoldAgreesIff`).
* A proposal id is made of target and value, so a proposal made again has the id of the first, and the
  queue updates the first: the later entry stays at `backtesting` (`Queue.LastReflectsIff`).
* Four branches of the evolution cycle never decide: the cap of 0.95 on the required confidence
  (`Evolution.ProposesIff`), the overfit check (`Challenger.ApprovedIff`), and the two checks below.
* Percentiles asked for below 0 wrap around to the end of the sample and extrapolate
  (`Distribution.PercentileBelow`); above 100 they are the greatest value, until the call raises.
* The challenger rates a candidate that merely fails to improve at risk zero
  (`Challenger.ReviewEvidence`), and two of its six checks cannot fail for a generated proposal
  (`GeneratedIsSupported`).
* `cognitive/README.md` promises that identical inputs give an identical stream; the model makes the
  inputs explicit (scores and draws included) and replays decisions from the stream alone.

## Model

| member | source | states |
|---|---|---|
| Trades.LotsAreTheFlips | cognitive/backtest_gate.py:173-191 | the positions taken are exactly the bars whose signal differs from the latest earlier signal; they are ordered and alternate in direction |
| Trades.LastDirIsLatestSignal | cognitive/backtest_gate.py:175-191 | the direction in force is that of the latest signal, so after the first signal the account is never flat again and the reset branch is unreachable |
| Trades.FillMonotone | cognitive/backtest_gate.py:144-146 | a larger slippage draw is never a better fill, for buys and for sells |
| Trades.RoundTripCost | cognitive/backtest_gate.py:144-146 | entering and leaving at one price costs exactly the sum of the two draws in parts of that price, long or short |
| Trades.CompoundScales | cognitive/backtest_gate.py:178-203 | compounding commutes with scaling the starting equity |
| Trades.CompoundDominance | cognitive/backtest_gate.py:178-203 | with non-negative factors, pointwise smaller growth compounds to no more money |
| Trades.CompoundStrictDominance | cognitive/backtest_gate.py:178-203 | and to strictly less when the factors are strictly smaller |
| Drawdown.GateMaxDrawdownPct | cognitive/backtest_gate.py:109-117 | the loop computes the rounded worst running-peak drop (guard: peak not zero) |
| Drawdown.EngineMaxDrawdownPct | backtest/engine.py:202-208 | the engine's loop computes the worst running-peak drop (guard: peak positive) |
| Drawdown.WorstDropIsQuadraticMax | cognitive/backtest_gate.py:109-117 | on a solvent curve the one-pass value is an upper bound of all (e_i - e_j)/e_i with i <= j, is attained by one pair, and lies in [0, 1) on a positive curve |
| Drawdown.WorstDropScaleInvariant | cognitive/backtest_gate.py:109-117 | scaling the curve by a positive constant does not change the drawdown |
| Drawdown.FallPastZeroIff | cognitive/backtest_gate.py:109-117 | on a curve that is positive up to a last bar below zero, the loop reports the fall from the peak, more than everything; it is the worst over all pairs iff all bars before stood equally high |
| Drawdown.UnderstatedIff | cognitive/backtest_gate.py:109-117 | on any curve that starts above zero, however long it is negative later, the loop's value is the worst over all pairs iff it covers the fall of every negative bar from the lowest positive bar before it |
| BacktestGate.PnlIsGrowth | cognitive/backtest_gate.py:178-187 | cash plus the PnL of a lot of cash*f/entry units is cash times 1 + f*dir*(exit/entry - 1) |
| BacktestGate.CashIsSumAndProduct | cognitive/backtest_gate.py:157-203 | start plus the sum of trade PnLs equals start times the product of the growth factors |
| BacktestGate.CloseLot | cognitive/backtest_gate.py:179-184 | closing realises exactly the next round trip: cash, PnL list and losing count stay those of the closed trades |
| BacktestGate.Flip | cognitive/backtest_gate.py:178-191 | after a flip the books are those of the lots so far plus the new one, at one draw per fill |
| BacktestGate.Bar | cognitive/backtest_gate.py:172-191 | one bar keeps the books in step with the lots its decision prefix opens |
| BacktestGate.Simulate | cognitive/backtest_gate.py:157-194 | the whole loop ends with the books of all lots, an equity curve of realised cash plus open gain at every bar, and the signal count |
| BacktestGate.CloseResidual | cognitive/backtest_gate.py:196-203 | the residual position closes at the last price and completes the trade list |
| BacktestGate.RunConfigBacktest | cognitive/backtest_gate.py:120-215 | for every price series, news series, agents and slippage: the return is within 0.00005 of 100 times the summed trade PnLs over the start; win and loss rate are within that of the shares of winning and losing trades, and the drawdown of the worst drop of the curve; trades and signals are counted exactly; the Sharpe ratio is theirs |
| BacktestGate.Summarise | cognitive/backtest_gate.py:205-215 | the read-out of books that add up (cash = start + PnLs): return, Sharpe, counts and rates as above |
| BacktestGate.MetricsReport | cognitive/backtest_gate.py:205-215 | the same of the metrics as a function of the decisions |
| BacktestGate.BarFollowsScore | cognitive/backtest_gate.py:157-175 | every bar decides by the weighted score of what the agents make of the last 64 bars up to its own, and of its own news value if there is one |
| BacktestGate.NoLookAhead | cognitive/backtest_gate.py:157-172 | the decisions on a prefix of the series are the prefix of the decisions |
| GateProperties.TradesChain | cognitive/backtest_gate.py:178-191 | consecutive trades alternate in direction and the next entry fills on the bar, with the draw, that follow the previous exit's |
| GateProperties.GrowthSign | cognitive/backtest_gate.py:178-187 | for 0 <= f <= 1 a long's factor is non-negative; a short's iff exit*f <= (1+f)*entry |
| GateProperties.SlippageNeverHelps | cognitive/backtest_gate.py:144-203 | on the same decisions slipped final cash is at most the frictionless one, strictly less once something was traded, if no slipped factor is negative |
| GateProperties.SlippageNeverHelpsOnPrices | cognitive/backtest_gate.py:144-203 | the same under a condition on the unslipped prices and f alone, and final cash stays non-negative |
| GateProperties.SlippageCanHelp | cognitive/backtest_gate.py:144-203 | the proviso is needed on every series with a ruinous short: if f*price_j > (1+f)*price_i for some i < j, decisions and draws exist with which the slipped run ends strictly richer |
| GateProperties.RunIsUnderstated | cognitive/backtest_gate.py:109-203 | such curves come from runs: for every choice of draws, a short from 1 through 0.5 to 4 gives an equity curve whose reported drawdown misses the worst pair |
| GateProperties.MetricsIgnoreAccountSize | cognitive/backtest_gate.py:205-215 | return, drawdown, counts and rates are the same for any two positive starting equities; the Sharpe ratio is the same iff the sizes are on the same side of its absolute cut, there are fewer than two trades, or the ratio rounds to zero |
| Sharpe.SharpeScaled | cognitive/backtest_gate.py:99-106 | on c times the account the ratio is mean over deviation of the original PnLs, or zero where c times their deviation is at most the cut |
| Report.SharpeIsMeanOverDeviation | cognitive/backtest_gate.py:99-106 | for a mean and a population deviation fixed by the sum and the sum of squares alone, the ratio is within 0.00005 of mean over deviation, and zero of fewer than two trades or at most the cut |
| Report.AnnualIsMeanOverDeviation | api/services/agents/trade_scorer.py:576-584 | the same of the engine's ratio: sample deviation, times the root of 252, zero at most 0.001 |
| Report.WinsCounted | cognitive/backtest_gate.py:206-206 | the counting loop gives the number of positive PnLs |
| WalkForward.EvaluateProposal | cognitive/backtest_gate.py:218-240 | both configs are run on the same prices, news and slippage and compared |
| WalkForward.DeltaIsExact | cognitive/backtest_gate.py:233-240 | rounding the deltas loses nothing: return, Sharpe, drawdown and false-positive deltas are exactly candidate minus baseline |
| WalkForward.InertChangeScoresZero | cognitive/backtest_gate.py:218-240 | a candidate that decides alike on every bar has all four deltas zero |
| WalkForward.EvaluateFolds | cognitive/backtest_gate.py:290-304 | fold k is judged on its own segment, its own news and seed + k, and wins are counted |
| WalkForward.WalkForwardRun | cognitive/backtest_gate.py:266-313 | short series fall back to a single paired run; otherwise fold k is the judgement of its own bars and news with seed + k; consistency is within 0.00005 of the share of folds won, both means of the mean deltas |
| WalkForward.SegmentsCover | cognitive/backtest_gate.py:290-296 | the folds laid end to end are exactly the price series: no bar is skipped or judged twice |
| WalkForward.SegmentNewsAligned | cognitive/backtest_gate.py:290-296 | bar i of a fold is the bar of the series after all earlier folds, and sees the news value of that bar, also when the news series is shorter |
| WalkForward.ConsistencyRange | cognitive/backtest_gate.py:306-310 | consistency is in [0, 1] and is 1 when the candidate wins every fold |
| BacktestEngine.CashIsSumAndProduct | backtest/engine.py:155-198 | start plus the scored PnLs equals start times the product of the engine's growth factors |
| BacktestEngine.CloseBooks | backtest/engine.py:163-170 | flowing the position's value back into cash realises exactly the next trade's PnL, the exit filled on the side of the signed quantity sold |
| BacktestEngine.CloseLot | backtest/engine.py:121-170 | after a close the position is zero, cash is the compounded equity, and one evaluation with the right PnL and holding period was added |
| BacktestEngine.ScoreLot | backtest/engine.py:121-139 | the evaluation of a closing lot carries the trade's own PnL, fills and holding period |
| BacktestEngine.OpenLot | backtest/engine.py:172-181 | opening fills on the side of the signed quantity bought and keeps cash + position*open_price equal to the realised equity |
| BacktestEngine.Flip | backtest/engine.py:163-181 | a turn keeps the cash-flow invariant for the lots so far plus the new one |
| BacktestEngine.Bar | backtest/engine.py:153-181 | a bar is a hold exactly when it opens no lot, and its mark is realised cash plus the gain of the open lot |
| BacktestEngine.Simulate | backtest/engine.py:141-183 | at every bar cash + position*open_price = start + closed PnL, the curve is the marked equity, and holds + trades = bars decided |
| BacktestEngine.CloseResidual | backtest/engine.py:185-193 | the last position is closed at the last bar and every lot has its evaluation |
| BacktestEngine.SealCurve | backtest/engine.py:194-198 | the last mark is replaced by the realised equity, an empty curve becomes that one value |
| BacktestEngine.RunBacktest | backtest/engine.py:78-233 | trades, counts, equity, return, drawdown, win rate, Sharpe ratio and average PnL of the result are those of the round trips the decisions define |
| BacktestEngine.LearningMetrics | api/services/agents/trade_scorer.py:571-586 | win rate by the sign of the PnLs, Sharpe ratio of the percentages, both rounded, zero without trades |
| EngineProperties.SizingRelation | backtest/engine.py:172-175 | engine and gate growth of one trade differ exactly by the factor entry fill / unslipped price, because the engine sizes on the unslipped price |
| EngineProperties.OpeningFillIff | backtest/engine.py:115-118 | an opening order slips against the lot's direction iff the capital put in is positive, or the draw is zero, or a lot of size zero is a short: `_fill` goes by the sign of the quantity |
| EngineProperties.ClosingFillIff | backtest/engine.py:115-118 | the same for the closing order, with a long in place of the short |
| EngineProperties.SolventRunFillsByDirection | backtest/engine.py:115-198 | while every earlier trade leaves a positive factor, all fills go against the lot's direction and the trades are those read off the decisions alone |
| EngineProperties.RuinedBuyFillsLow | backtest/engine.py:115-181 | for every choice of production draws: after a short that loses more than the account, a BUY at 4 is filled below 4 |
| EngineProperties.FrictionlessRunsAgree | backtest/engine.py:141-198 | without slippage the cash-flow engine and the PnL gate end with the same money on all inputs |
| EngineProperties.FrictionlessMarksAgree | backtest/engine.py:183-183 | and show the same marked equity at every bar |
| EngineProperties.EngineSlippageNeverHelps | backtest/engine.py:115-198 | slippage never helps the engine either while no trade, filled by direction, takes more than the account |
| EngineProperties.ReportIgnoresAccountSize | backtest/engine.py:78-233 | two accounts whose starts have the same sign report the same return, counts, win rate and Sharpe ratio, and proportional money |
| EngineProperties.HoldingPeriodsCover | backtest/engine.py:121-139 | the holding periods of all evaluations add up to the stretch from the first signal to the last bar: no gap, no overlap |
| EngineProperties.ReportConservesMoney | backtest/engine.py:185-233 | final equity is the starting equity plus the PnL of every reported evaluation, one evaluation per flip; the return times the start is 100 times that sum, the average times the count is it; signals are counted exactly |
| EngineProperties.ReportRates | api/services/agents/trade_scorer.py:571-586 | the win rate is within 0.00005 of the share of evaluations that made money, the Sharpe ratio that of their percentages |
| EngineProperties.PercentageIsPnlOverNotional | backtest/engine.py:121-139 | the percentage of an evaluation times the lot's worth at its entry fill is 100 times its PnL |
| DeliveryProperties.EffectKeeps | api/events/bus.py:286-302 | the server-side effect of any consumer call keeps the pending/acked partition, the records and "acknowledged means handled" |
| DeliveryProperties.AnsweredCallKeeps | api/events/consumer.py:378-493 | every answered Redis call of the handler keeps the protocol invariant |
| DeliveryProperties.FaultedCallKeeps | api/events/consumer.py:378-493 | so does a call that raises, whether or not the server executed it |
| DeliveryProperties.StepKeeps | api/events/consumer.py:207-493 | every step - crash, restart, reclaim, consume, resent call, replay, expiry - keeps the invariant |
| DeliveryProperties.AtLeastOnce | api/events/consumer.py:217-249 | in every reachable state an entry is in exactly one of undelivered, pending and acked, and an acked one was processed to completion or pushed to the DLQ |
| DeliveryProperties.UnhashableNeverEnds | api/events/consumer.py:400-401 | an entry whose schema field reads as a list or a dict is, in every reachable state, neither processed nor in the DLQ nor acknowledged, and every worker that takes it dies |
| Admission.UnversionedIsProcessed | api/events/bus.py:163-163 | in every run, an event published without a schema version is on the stream as "v3"; it - like "v3", "legacy", null and "" - is handed to process by every worker that takes it, and is written to the DLQ only after DLQ_MAX_RETRIES counted failures, which its record does not exceed |
| Admission.OtherVersionsAreRejected | api/events/consumer.py:398-421 | every other version that can be looked up is rejected by every worker that takes it, never processed, recorded with zero retries, and acknowledged only once recorded |
| Admission.CopiesAreTheEntry | api/events/consumer.py:389-397 | a DLQ record and a replayed copy carry the entry's schema, body and msg_id, its stream id where it had none; a copy of an accepted entry is buried only by its own failures |
| Admission.StepJust | api/events/consumer.py:400-463 | what these rest on, kept by every step: the counter never exceeds the increments executed, a worker past the limit has seen that many, and only accepted entries are in process |
| DeliveryProperties.NothingIsLost | api/events/consumer.py:378-493 | if the server executed every replay's publish and no operator discarded a record, every event is on its way, processed, parked, or alive as its replayed copy |
| DeliveryProperties.ReplayEffect | api/events/dlq.py:89-104 | a complete replay leaves no record and no counter, and one new stamped copy for each time the server executed the publish |
| DeliveryProperties.ReplayConservesIff | api/events/dlq.py:89-104 | the parked event survives its replay iff the server executed the publish, which an id returned proves and a None does not refute |
| DeliveryProperties.FailuresAreBounded | api/events/consumer.py:438-463 | since its counter last vanished, an entry failed at most DLQ_MAX_RETRIES - 1 times plus once per fault or crash in its recovery, per burial and per attempt in progress, of which each worker has at most one |
| DeliveryProperties.SingleWorkerBound | api/events/dlq.py:44-48 | with one worker, between any two resets of the counter: at most DLQ_MAX_RETRIES failures plus one per crash or fault before the entry is buried |
| Consumer.StreamConsumer.constructor | api/events/consumer.py:37-59 | a consumer starts with an empty run from a sound state, no events processed and back-off 1 |
| Consumer.StreamConsumer.ValidIsSafe | api/events/consumer.py:378-493 | everything the protocol keeps holds between any two calls of the handler |
| Consumer.StreamConsumer.CallRedis | api/events/consumer.py:420-463 | an answered call has its effect - twice if its first reply was lost - and moves on; a raising one leaves the handler as the except clauses do |
| Consumer.StreamConsumer.HandleMessage | api/events/consumer.py:378-493 | handling an entry is a run of the protocol; when Redis answers, its net effect is acknowledge, bury an invalid entry, or count a failure; it comes back iff the schema field can be looked up and is accepted or its push does not raise, else the polled batch is dropped or the task is dead; the count of processed events grows exactly when processing succeeded |
| Consumer.StreamConsumer.DeadLetterInvalid | api/events/consumer.py:401-421 | an unknown schema version is pushed with zero retries and acknowledged; a failed push escapes, and only that |
| Consumer.StreamConsumer.Recover | api/events/consumer.py:438-480 | a failure is counted, and the entry that reached the limit is pushed with its count and acknowledged |
| Consumer.StreamConsumer.ShouldDlq | api/events/dlq.py:44-48 | one more failure is counted; the entry goes on to the DLQ iff both calls came back and the counter reached the limit |
| Consumer.StreamConsumer.Bury | api/events/consumer.py:441-445 | the record holds the counter read after the limit was reached, and the ack comes after the push |
| Consumer.StreamConsumer.BackOff | api/events/consumer.py:316-339 | after the k-th connection error in a row the wait is the smaller of 2^k and ten |
| Consumer.BackoffGrows | api/events/consumer.py:316-339 | each further error doubles the wait, capped at ten, and never lowers it |
| Poison.RunAdvances | api/events/consumer.py:217-480 | any run - crashes, faults, resent calls, publishes, replays, other entries succeeding - in which the counters of the first n entries do not vanish never takes an entry out of the acked set, never lowers their counters, and processes no entry that cannot succeed |
| Poison.VisitAdvances | api/events/consumer.py:378-463 | one fault-free handling brings a pending entry closer to acknowledgement and undoes nothing |
| Poison.RoundEvents | api/events/bus.py:431-501 | a fault-free restart - XAUTOCLAIM, the batch, polling until empty, or until an entry kills the worker - is a run of the delivery machine with the computed final broker and worker |
| Poison.CleanRoundWorks | api/events/bus.py:431-501 | such a round strictly lowers the handlings the first n entries still need while any is left and none of them kills workers |
| Poison.AllEndIff | api/events/consumer.py:217-249 | over any run in a live stream: after as many fault-free restarts as the first n entries need handlings (at most DLQ_MAX_RETRIES each), all of them are acknowledged iff none of them has a schema field that kills workers |
| Poison.PoisonEndsInDlq | api/events/consumer.py:217-249 | and of those, one that cannot succeed was pushed to the DLQ, where it still is unless an operator took it out |
| Poison.RestartsAreBlocked | api/events/consumer.py:217-228 | when the oldest pending entry kills workers, fault-free restarts alone never change anything again |
| Dlq.DlqManager.Push | api/events/dlq.py:24-42 | writes one record under the event id in the stream's own hash and touches nothing else |
| Dlq.DlqManager.ShouldDlq | api/events/dlq.py:44-48 | counts one more failure, renews the counter's life and says whether the limit is reached |
| Dlq.DlqManager.Clear | api/events/dlq.py:101-104 | the id disappears from every stream's hash and its counter is deleted; other ids stay |
| Dlq.DlqManager.Replay | api/events/dlq.py:89-99 | found iff some stream holds the id; then the first holder's payload is on its stream once for each execution of the publish, and the id is cleared everywhere |
| Dlq.ReplayKeepsEveryRecordIff | api/events/dlq.py:89-104 | every cleared record is back on its stream iff the server executed the publish and no second stream held the id |
| RecentKeys.ProcessedIds.Remember | api/services/event_pipeline.py:319-326 | set and deque stay the same duplicate-free keys: the last `cap` remembered ids |
| RecentKeys.DecisionStore.RecordDecision | api/in_memory_store.py:640-676 | deduplicates iff the key is among the last 2000, else appends to the list capped at 500 |
| RecentKeys.TrimKeys | api/in_memory_store.py:650-651 | the trimming loop keeps the newest keys and the set in step |
| RecentKeys.RetainedDecisionsAreGuarded | api/in_memory_store.py:640-676 | every decision still listed has its key in the dedup set, so it cannot be recorded twice |
| Pipeline.EventPipeline.constructor | api/services/event_pipeline.py:42-67 | starts empty, running, with nothing accepted |
| Pipeline.EventPipeline.Strand | api/services/event_pipeline.py:104-118 | an entry whose delivery was lost with the reply, or with the process, is pending for ever: this group never reclaims |
| Pipeline.EventPipeline.ProcessMessage | api/services/event_pipeline.py:200-326 | a known id is only acknowledged; otherwise it is broadcast once and remembered; either way the event's msg_id has been broadcast |
| Pipeline.BroadcastsAreFarApart | api/services/event_pipeline.py:209-220 | two outbound broadcasts of one msg_id have at least 5000 others between them as long as the process lives |
| Pipeline.EventPipeline.Republish | api/services/event_pipeline.py:153-157 | the old copy goes, and one copy with the count raised comes for each execution of the publish; without any the event is lost |
| Pipeline.EventPipeline.DeadLetter | api/services/event_pipeline.py:172-188 | the last failure is recorded under its msg_id iff the server executed the write; if the write raises, the loop stops and the entry is stuck; if the broadcast of the dlq_event raises, the loop stops too |
| Pipeline.EventPipeline.Stall | api/services/event_pipeline.py:120-126 | a retry count that does not read as an integer raises outside the handler's try: the loop is dead and the entry pending |
| Pipeline.EventPipeline.ProcessWithRetry | api/services/event_pipeline.py:120-198 | what becomes of one attempt in every case, whatever raises and is executed once, twice or not: each accepted event stays accounted for - in exactly one place unless a write was doubled - unchanged in all copies save for its count, and with no republish doubled attempts so far and to come are exactly its budget; and whether the loop lives |
| Pipeline.EventPipeline.HandleFailure | api/services/event_pipeline.py:153-188 | a failed attempt is republished while retries are left, else buried |
| Pipeline.AttemptsCost | api/services/event_pipeline.py:153-157 | every attempt lowers what the backlog can still cost, even if every republish is executed twice |
| Pipeline.AttemptIsPaid | api/services/event_pipeline.py:153-157 | the attempt is paid for by the copy that was tried, in the chain of single copies as in the tree of doubled ones |
| Pipeline.SpendingUses | api/services/event_pipeline.py:153-179 | no attempt is given up early: one attempt takes exactly one from the budget of its event, and a DLQ push finds the budget spent |
| Pipeline.DrainedEvents | api/services/event_pipeline.py:120-198 | once the backlog is empty, every accepted event was broadcast under its msg_id, is on record, lost or stuck; one that was buried, or whose burial raised, had exactly max(1, max_retries - initial count) attempts unless a republish of it was doubled, and its record is the event as accepted save for the count |
| Pipeline.EventPipeline.Drain | api/services/event_pipeline.py:104-118 | handling a finite backlog in any order terminates; it ends empty unless the loop died, loses nothing if every republish is executed, doubles nothing if no write is, and does not die if no DLQ write or dlq_event broadcast raises and every retry count is readable |
| Governance.ProposalGovernor.constructor | cognitive/governance.py:38-46 | a new governor has admitted, rejected and blocked nothing |
| Governance.ProposalGovernor.Rule | cognitive/governance.py:59-70 | the verdict read off the pruned queue is the one the full history dictates: cooldown first, then duplicate, then quota |
| Governance.ProposalGovernor.Admit | cognitive/governance.py:54-74 | admits iff no brake applies on the full history and names the first that does; cycle = admissions + blocked stays true |
| Governance.AdmittedIff | cognitive/governance.py:47-70 | the verdict of the next cycle from past admissions and rejections alone: cooldown iff a rejection of the target is less than `cooldown` cycles old, else duplicate iff the same target and value (to four places) was admitted in the window, else quota iff the window holds that many admissions, else admitted |
| Governance.ProposalGovernor.RecordOutcome | cognitive/governance.py:76-79 | a rejection benches its target for `cooldown` cycles, an approval changes nothing |
| Governance.AtMostQuotaPerWindow | cognitive/governance.py:54-70 | any `window` consecutive cycles contain at most `quota` admissions |
| Supervisor.AgentSupervisor.CanRestart | api/services/agent_supervisor.py:170-176 | allowed iff fewer than the maximum of all restarts ever recorded under this name lie in the window before the check; other names are untouched |
| Supervisor.MayRestartIff | api/services/agent_supervisor.py:170-176 | a restart is allowed iff fewer than three recorded ones lie in the last 300 seconds |
| Supervisor.AgentSupervisor.RecordRestart | api/services/agent_supervisor.py:178-179 | recording at or after a check that allowed it keeps the limit for every name |
| Supervisor.AgentSupervisor.CheckHealth | api/services/agent_supervisor.py:115-168 | every crash is announced, in order; a restart is recorded under the agent's name iff it crashed, was allowed and came up; agents of one name share a history |
| Supervisor.AtMostMaxPerWindow | api/services/agent_supervisor.py:148-179 | for every agent name, every closed interval of the window's length holds at most the maximum number of recorded restarts |
| Distribution.OrderedSorts | backtest/distribution.py:59-60 | the sorted sample is ordered and has the same elements |
| Distribution.Percentiles | backtest/distribution.py:51-66 | every requested percentile is reported, rounded to six places, zero for an empty sample; for any p, also outside 0..100, it raises iff some rank is not an index |
| Distribution.ReachesIff | backtest/distribution.py:61-65 | a percentile raises iff its rank is a whole step outside the sample, counted from either end; between 0 and 100 never |
| Distribution.PercentileInterpolates | backtest/distribution.py:58-65 | for any ascending arrangement s of the sample, the percentile k + t steps up is (1 - t)*s[k] + t*s[k+1]: the 100k/(n-1) percentiles are the order statistics, and it moves in a straight line between them |
| Distribution.PercentileBelow | backtest/distribution.py:58-65 | below 0 the indices wrap: j + t steps down it lies on the far side of the line through the j-th value from the end and the next one |
| Distribution.PercentileAbove | backtest/distribution.py:58-65 | above 100 it is the greatest value as long as the call does not raise |
| Distribution.PercentileEnds | backtest/distribution.py:51-66 | P(0) and P(100) are the least and greatest value |
| Distribution.PercentileIgnoresOrder | backtest/distribution.py:51-66 | samples with the same elements have the same percentiles |
| Distribution.PercentilesRise | backtest/distribution.py:51-66 | min <= P(p) <= P(q) <= max for p <= q |
| Distribution.ThresholdRow | backtest/distribution.py:69-77 | the rank is within 0.00005 of 100 times the share of the sample below the threshold, the hit rate within half a micro-unit of the share not below; both zero of an empty sample |
| Distribution.RankAndHitRate | backtest/distribution.py:127-134 | before rounding, rank/100 + hit rate = 1 |
| Config.DictRoundTrip | cognitive/config.py:72-105 | `from_dict(to_dict(c))` is `c` for every configuration |
| Config.ValidateConfigDict | cognitive/config.py:123-165 | the accumulating validator returns exactly the errors of the three sections, in order, and raises iff a checked setting is an integer too large for a float |
| Config.ValidIffSafe | cognitive/config.py:111-165 | the validator never raises on a written configuration and accepts it iff all its values are inside the guardrails and sell is below buy |
| Config.ErrorsNameWhatIsWrong | cognitive/config.py:111-165 | where it does not raise, the validator reports an error iff what it says is true of the object: a section that is no object, a missing or outlying setting (booleans count as outlying), a sell threshold not below the buy threshold |
| Config.EmptySectionsAreMissing | cognitive/config.py:72-95 | a section that is null, false, 0 or empty loads like a missing one; any other value but an object raises |
| Config.BooleansReadAsNumbers | cognitive/config.py:72-95 | a boolean version or threshold loads as 1 or 0 |
| Config.AcceptedLoads | cognitive/config.py:72-165 | any accepted JSON object loads into a safe configuration iff its version, where present, reads as an integer |
| Config.LoadIsSafe | cognitive/config.py:175-191 | loading yields the defaults or a safe configuration; it raises iff the file cannot be decoded, a checked setting is an integer too large for a float, or an otherwise accepted file has an unreadable version |
| Decision.EvaluateRisk | cognitive/risk.py:44-66 | a trade is allowed iff all three limits hold, a hold never; the blocks name exactly the limits a trade breaks, each once |
| Decision.DecisionFollowsScore | cognitive/decision.py:51-70 | with d the exact sum of feature times weight: BUY if d exceeds the buy threshold by more than 0.000002, SELL if it is as clearly below the sell threshold (and sell <= buy), HOLD if clearly between; each breakdown entry is within half a micro-unit of its own product |
| Decision.RaisingNeverSells | cognitive/decision.py:51-63 | raising features whose weights are not negative never turns a BUY into HOLD or SELL, nor a HOLD into SELL |
| Decision.FilledIff | cognitive/execution.py:50-77 | an order is filled iff there is a signal, all three limits of the config hold and the price is positive; a skipped one is empty |
| Decision.FilledForRequest | cognitive/execution.py:68-77 | a filled order is on the side of the verdict, at the market price, for the requested part of the equity: to the cent in money, to half a hundred-millionth in quantity |
| EventStream.EventStream.Emit | cognitive/events.py:144-173 | the event gets the next number and is kept; with a cap exactly the newest `cap` events remain and the rest are counted dropped |
| EventStream.EventStream.Events | cognitive/events.py:175-180 | the retained events of a kind in order, trimmed to the newest `limit` |
| EventStream.EventStream.Latest | cognitive/events.py:182-187 | the newest retained event of a kind, or none |
| Learning.AttributionError | cognitive/learning.py:50-64 | the attributed amounts miss the PnL by at most 1.5e-6*(abs(pnl)+1), and are all zero when no signal contributed |
| Learning.EachSignalIsPaid | cognitive/learning.py:50-64 | each signal is paid its own part - the size of its contribution among all three - to within half a micro-unit of (abs(pnl)+1), and exactly nothing if it contributed nothing |
| Learning.ImportanceTracker.Update | cognitive/learning.py:89-99 | one more sample per signal, the attributed PnL added, correct iff the contribution has the outcome's sign |
| Learning.AttributionErrorOverRuns | cognitive/learning.py:50-99 | over any list of trades with contributions the accumulated error is at most 1.5e-6 times the sum of (abs(pnl)+1) |
| Learning.TrackerKnowsEachSignal | cognitive/learning.py:89-99 | over any list of trades, per signal: one sample each, correct as many as it pointed the way of the money, the summed sizes of its contributions, and its summed exact parts of the PnLs to within half a micro-unit of each (abs(pnl)+1) |
| Learning.CollectObservations | cognitive/learning.py:151-190 | the loop returns exactly the observations the signals' statistics back, in signal order, none below the minimum sample size |
| Learning.ObservationsAreEarned | cognitive/learning.py:151-190 | every observation has 30 samples of its signal behind it, six tenths right and no loss, or at most four tenths right or a loss (to half a micro-unit); its confidence is within 0.005001 of 0.6 times the distance from a coin toss plus 0.4 times the coverage |
| Learning.ClearRecordsAreObserved | cognitive/learning.py:151-190 | 30 samples with six tenths right and no loss are observed as outperforming, with at most four tenths right or a loss of more than half a micro-unit as underperforming |
| Learning.SignSurvivesIff | cognitive/loop.py:205-225 | six-place rounding keeps the sign of a PnL iff it is zero or exceeds half a micro-unit |
| Learning.EventFoldAgreesIff | cognitive/loop.py:205-225 | folding the rounded event gives the in-memory tracker iff the sign survives or no contribution pointed that way |
| Evolution.ProposalScorecard.Record | cognitive/proposal.py:178-182 | one more attempt for the type, one more success iff it succeeded |
| Evolution.SuccessRateIsAFraction | cognitive/proposal.py:184-188 | the success rate is in [0, 1], within 0.00005 of successes over attempts, and a half of an untried type |
| Evolution.ProposesIff | cognitive/proposal.py:212-261 | a proposal is made iff the first most confident observation reaches 0.8 - 0.3*rate and its weight, to six places, is not at the bound it is to move to; it names that signal and moves it 0.025 to 0.05 its way, within [0, 1], to four places |
| Evolution.WeightApplied | cognitive/gitops.py:46-63 | a weight proposal yields the config with that one clamped weight and the next version iff the result is safe |
| Evolution.RiskApplied | cognitive/gitops.py:52-63 | a risk proposal yields the config with that one limit and the next version iff the result is safe |
| Evolution.AppliedIsSafe | cognitive/gitops.py:40-63 | whatever the proposal, an applied candidate is safe, one version up and differs in the one named setting; a well-formed edit is refused only if unsafe |
| Evolution.ProposalsAreSafeSteps | cognitive/proposal.py:212-261 | from a safe config every generated proposal applies and moves exactly one weight by a non-zero step of at most 0.05 plus rounding |
| Evolution.ProposedNeverRaises | cognitive/proposal.py:212-261 | applying a generated proposal never raises, whatever the config in force |
| Challenger.ReviewEvidence | cognitive/challenger.py:50-142 | approved iff all six checks pass; the reasons name exactly the failed ones; the risk score is the sum of their weights, in [0, 1], and zero iff every check but out-of-sample improvement passes |
| Challenger.Try | cognitive/loop.py:318-359 | the trial of a candidate: both configs on the bars before and after the cut and in the walk-forward, and the verdict on that evidence |
| Challenger.GeneratedIsSupported | cognitive/loop.py:275-281 | for a generated proposal the challenger's sample-size and attribution checks always pass: the observation it came from needed as much |
| Challenger.CutCovers | cognitive/loop.py:318-336 | the bars before and after the cut are the series, the first part its floor of split*n bars but at least one, and every bar keeps its own news |
| Challenger.ApprovedIff | cognitive/challenger.py:50-142 | approved iff after the cut the return is higher, the drawdown at most one point more and both sides have thirty trades, at least thirty learning samples of the named signal speak for the direction, and consistency is at least 0.6: the overfit check never decides |
| Challenger.ApprovedIsBetter | cognitive/challenger.py:65-118 | an approved candidate ends with strictly more cash after the cut, hence a higher return, with at most one point more drawdown and thirty trades on both sides |
| Challenger.ApprovedWinsFolds | cognitive/challenger.py:95-118 | and beats the baseline in at least 59.995 % of the folds |
| Challenger.InertIsRejected | cognitive/challenger.py:89-118 | a candidate that decides like the baseline on every bar after the cut is never approved |
| Queue.ProposalQueue.SetStatus | cognitive/proposal.py:304-310 | the first entry with the id takes the status; found iff there is one |
| Queue.LastReflectsIff | cognitive/proposal.py:297-310 | the entry added for a proposal shows the status it is later given iff no earlier entry has its id |
| CognitiveLoop.FiledShows | cognitive/loop.py:305-398 | a proposal new to the queue ends up there as blocked, approved or rejected, as the cycle went, and nothing else moves |
| Drift.DriftMonitor.Observe | cognitive/drift.py:63-67 | the newest 2*window samples of a registered metric are kept, an unknown one is ignored |
| Drift.DriftMonitor.Assess | cognitive/drift.py:69-92 | a metric has an alert iff it has at least 20 samples and the mean of the later half is worse than that of the earlier one by more than its threshold; the alert shows both means and the difference to four places |
| Drift.SteadyNeverAlarms | cognitive/drift.py:69-92 | a metric that never gets worse never raises an alert |
| Drift.StepAlarmsIff | cognitive/drift.py:69-92 | a step between two levels, seen equally long on both, raises an alert iff it is for the worse by more than the threshold |
| Drift.RegretIsToTheBest | cognitive/counterfactual.py:57-73 | a buy makes the move, a sell its opposite, a hold nothing, to half a micro-unit; the regret is what the best of the three makes beyond the chosen one |
| Drift.RegretIsZeroIff | cognitive/counterfactual.py:57-73 | regret is never negative and zero iff no other action would have done better; the traded side is credited with the realised PnL |
| ConfigDiff.SortedKeys | cognitive/gitops.py:88-88 | the keys of both dicts, each once, in order |
| ConfigDiff.Sort | cognitive/gitops.py:88-88 | sorting the united keys gives their one ascending order |
| ConfigDiff.AscendingUnique | cognitive/gitops.py:88-88 | a set of keys has only one ascending order, so the diff's order is determined |
| ConfigDiff.ComputeDiff | cognitive/gitops.py:83-97 | the accumulating recursive loop returns the diff with every path continued from the prefix |
| ConfigDiff.EmptyIff | cognitive/gitops.py:83-97 | the diff is empty iff the configs agree up to null-valued keys |
| ConfigDiff.PathsArePrefixFree | cognitive/gitops.py:83-97 | paths are distinct and none continues another |
| ConfigDiff.ReverseDiff | cognitive/gitops.py:83-97 | the diff the other way round is the same diff with old and new exchanged |
| ConfigDiff.PatchReaches | cognitive/gitops.py:83-97 | applying the diff to old gives new up to null-valued keys, and exactly new iff new has a null only where old has one and misses no null of it |
| ConfigDiff.DiffIsAPatchIff | cognitive/gitops.py:83-97 | with null leaves, each direction of the diff is an exact patch iff the nulls match in that direction |
| ConfigDiff.DiffIsAPatch | cognitive/gitops.py:83-97 | without null leaves the diff takes old to new, its reverse new to old, and it is empty iff they are equal |
| ConfigDiff.WrittenDiffRoundTrip | cognitive/gitops.py:83-97 | without null leaves, the written diff takes old to new, and its reverse new to old, iff no changed path has a dotted key; then the written paths are distinct |
| ConfigDiff.ChangesAreDotFree | cognitive/gitops.py:88-91 | configurations with dot-free keys never have a dotted change |
| ConfigDiff.SplitPathText | cognitive/gitops.py:91-91 | a written path of dot-free keys reads back as those keys |
| ConfigDiff.NullLeavesVanish | cognitive/gitops.py:93-97 | a change from missing to null leaves no line |
| ConfigDiff.DottedKeysAreMisread | cognitive/gitops.py:91-91 | an instance of the failing side: a concrete dotted key whose diff, applied, builds a different config |
| BrainProperties.EmittedFits | cognitive/loop.py:108-438 | each operation of the loop emits only its own kinds of event |
| BrainProperties.ApplyKeepsSound | cognitive/loop.py:108-438 | every operation keeps: decisions replayable, executions gated, the config in force announced |
| BrainProperties.EveryDecisionReplays | cognitive/loop.py:142-158 | in every run every DECISION equals `decide` on its step's FEATURES and the config decoded from the latest CONFIG_VERSION, and carries that version |
| BrainProperties.EveryExecutionIsGated | cognitive/loop.py:150-178 | in every run each EXECUTION directly follows a RISK_GATE and a DECISION of its trace; a filled one kept all three limits of the config in force and is for the requested part of the account's equity |
| Lineage.EveryDecisionFollowsScore | cognitive/loop.py:142-158 | in every run every DECISION follows the exact weighted sum of the FEATURES recorded two events before it, under the config decoded from the stream |
| Lineage.DecisionForIsNewest | cognitive/loop.py:180-184 | the decision found is the newest of the trace among the retained events, and none is found iff there is none |
| Lineage.EveryAttributionIsSettled | cognitive/loop.py:203-224 | in every run each ATTRIBUTION directly follows the TRADE_OUTCOME of its trace; the outcome carries version and proposal of the newest decision retention had left, the attribution pays each signal for its own contribution to that decision; without one, the version in force and nothing paid |
| Lineage.RunKnowsEachSignal | cognitive/loop.py:221-225 | after any run the tracker holds, per signal, the samples, right calls, sizes and - within the summed bound - money of the trades the run closed |
| Lineage.ObservedFromTrades | cognitive/loop.py:263-268 | an observation of any run is earned on the trades it closed: at least thirty, with the stated share of right calls and money |
| BrainRuns.OnlyMergesChangeBehaviour | cognitive/loop.py:409-438 | a run has one CONFIG_VERSION per merge plus the first, and without merges config and provenance never change |
| BrainRuns.FunnelHolds | cognitive/loop.py:305-398 | in every run proposals >= backtests = approvals + rejections, and PR requests = approvals |
| BrainRuns.ScorecardIsOnStream | cognitive/loop.py:338-407 | after any run the scorecard holds exactly the verdicts on the stream: one attempt per backtest, one success per approval |
| BrainRuns.NothingUngraded | cognitive/loop.py:189-251 | for any cap, between operations the retained events hold at least as many trade grades as outcomes |
| BrainRuns.TrackerIsAFold | cognitive/loop.py:205-225 | over any run the in-memory tracker equals the fold of the ATTRIBUTION and TRADE_OUTCOME events iff no trade was closed with a PnL below half a micro-unit in the direction of a contribution |
| BrainRuns.VisibleRunsFold | cognitive/loop.py:205-225 | in particular if every PnL is visible after rounding |
| BrainRuns.GridIsVisible | cognitive/loop.py:205-209 | every PnL on the six-place grid is |
| BrainRuns.CycleBuildsCandidate | cognitive/loop.py:300-330 | from a safe config an admitted cycle always gets a candidate built from the config in force |
| BrainRuns.EvolutionIsSafe | cognitive/loop.py:409-438 | along runs that merge only such candidates the active config is always safe and the version counts the merges |
| BrainRuns.EveryMergeIsASafeStep | cognitive/loop.py:409-438 | each of those merges moves exactly one weight by at most 0.05 plus rounding and nothing else |
| BrainRuns.DefaultTraceIdsCollideIff | cognitive/loop.py:124-124 | two passes get the same default trace id iff the log had reached its cap before the first |
| CognitiveLoop.Loop.constructor | cognitive/loop.py:70-103 | a new loop has announced its config and nothing else |
| CognitiveLoop.Loop.Step | cognitive/loop.py:108-178 | the pass emits signals, features, reasoning, decision, gate, execution in that order and changes no config; the verdict follows the exact weighted score, and the order is filled iff there is a signal, the limits hold and the price is positive, for the requested part of the equity |
| CognitiveLoop.Loop.FindDecision | cognitive/loop.py:180-184 | the newest retained decision of the trace |
| CognitiveLoop.Loop.CloseTrade | cognitive/loop.py:189-251 | outcome, attribution, grade and counterfactual with the lineage of the trade's own decision, each signal paid for its own contribution to it; the tracker learns the unrounded sign; the newest samples of the drift monitor are the grade, the regret of the decided action and the direction |
| CognitiveLoop.Loop.DetectDrift | cognitive/loop.py:253-258 | one event per alert of the monitor and nothing else |
| CognitiveLoop.Loop.Learn | cognitive/loop.py:263-273 | observations and three agent grades; tracker and config untouched |
| CognitiveLoop.Loop.Judge | cognitive/loop.py:338-407 | given the verdict: backtest, verdict and grade events, a PR request iff approved; the scorecard counts the outcome and a rejection benches the target |
| CognitiveLoop.CycleAdmitsIff | cognitive/loop.py:300-312 | a cycle's proposal is admitted iff no rejection benches its target, its own new value was not admitted in the window, and the window is not full |
| CognitiveLoop.RejectedIsBenched | cognitive/loop.py:312-407 | an admitted proposal that is not approved benches its target from that cycle on |
| CognitiveLoop.Loop.Evolve | cognitive/loop.py:285-407 | the cycle never changes config or provenance; a generated proposal is admitted exactly when the governor's rule says so, approved iff admitted, applicable and passed by the backtests and the challenger; one that is not approved benches its target; the queue files it as blocked, approved or rejected; a candidate is returned iff it was admitted and applies |
| CognitiveLoop.Loop.Merge | cognitive/loop.py:409-438 | the candidate becomes the config, its proposal the provenance, both are announced, and the first queue entry with the id is marked merged |
| CognitiveLoop.Loop.AssessHealth | cognitive/health.py:21-106 | the reported counts, per-agent activity, last number and last decision are those of the retained events, with emitted and dropped |
| CognitiveLoop.Loop.FindLastDecision | cognitive/health.py:21-106 | the action of the newest retained decision, none iff none is retained |
| CognitiveLoop.AllTagsCounted | cognitive/health.py:21-106 | health reports each of these counts, of the retained events |
| BrainProperties.TradesCounted | cognitive/health.py:21-106 | the counts of decisions, executions, closed and graded trades are the numbers of such events |
| BrainProperties.ProposalsCounted | cognitive/health.py:21-106 | so are those of observations, config versions, proposals and backtests |
| BrainProperties.VerdictsCounted | cognitive/health.py:45-57 | so are approvals, rejections and PR requests |
| CognitiveLoop.AgentsCounted | cognitive/health.py:28-42 | every expected agent shows the number of its retained events and the number of the newest, -1 without any |
| CognitiveLoop.HealthNeverShowsUngraded | cognitive/health.py:89-105 | after any run, for any cap, health reports zero ungraded trades |
| Rounding.RoundNear | cognitive/learning.py:50-64 | a rounded value is on its grid and at most half a unit away |
| Rounding.RoundMono | cognitive/backtest_gate.py:205-215 | rounding is monotone |
| Rounding.TiesToEven | cognitive/learning.py:50-64 | half-way cases go to the even neighbour |

## Left out

- CognitiveLoop.Loop.Judge: the verdict is a parameter of this step; `Loop.Evolve` obtains it from `Challenger.Try`.
- CognitiveLoop.Loop.CloseTrade: the overall grade is a parameter; letters, components and the texts of grades are not modelled.
- BacktestEngine.RunBacktest: the rest of the `metrics` dictionary (score trend, consistency, drawdown of the percentages) and the scores of the evaluations.
- Supervisor.AgentSupervisor.CheckHealth: log lines, and whether the alert's publish succeeded, which the code ignores.
- Price: zero and negative prices, on which the source divides by zero or flips the sign of a position's size.
- `score_trade` and trade confidence: scoring formulas of the engine's report.
- IEEE-754 arithmetic: all arithmetic is exact apart from the explicit `round` calls.
- Agent scorers, grades, regime and the payloads of counterfactual and drift events: their outputs are inputs or carry no content.
- NaN and infinite numbers in a configuration file.
- Real Redis, asyncio scheduling, heartbeats, lifecycle rows, agent state, logging and telemetry.
- Stream trimming (`MAXLEN`) and recreating a lost group at `$`, both of which skip entries by design.
- Idle times of `XAUTOCLAIM`: a restart may be handed any pending entries; in `Poison` it gets the oldest hundred.
- Two streams sharing an event id in `Delivery` (one stream, one group); `Dlq` covers that case for replay.
- Acknowledge failures in the pipeline: the bus swallows them, so the entry counts as handled.
- Cancelling the pipeline task between two awaits of one handling.
- `recent_events`, `recent_failures`, event-history persistence and status dictionaries of the pipeline.
- PR titles, bodies, branch slugs, JSON text and the configuration file's text.
- Subscribers of the stream, traces and `snapshot` read-outs, and the `stream or EventStream()` default that ignores an empty stream passed in.
- Governor keys are pairs of target and rounded value, not their concatenated text.
- The string form of the percentile keys.
- Python's equality between booleans and numbers in `config_diff`.
