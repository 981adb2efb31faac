# The deterministic trading core, modelled and proved

This project is a Dafny 4.11 model of the part of the trading platform that decides and keeps the
books: order state machine, execution, the two position ledgers, protective stops, reconciliation,
the risk gate, the two engines that must report the same trades, restart from the journal, the
cross-process trade lock, refresh-token rotation, the market-structure detectors, the options
payoff engine, candle resampling, correlation netting, options batches and the replay engine.
`dafny verify dfyconfig.toml` checks all of it.

## How the model is laid out

Each file is one module and follows one component of the repository. Where the source changes state
step by step, the module holds three things: functions on values that say what one step does,
a class (or a method with loops) of the source's own shape whose methods are proved to take exactly
that step, and lemmas about whole runs of the steps. Where the source only computes, there are
functions and lemmas. Prices, quantities and cash are exact reals, timestamps whole seconds UTC.

| file | what it models |
|---|---|
| `Common`, `Sorting`, `Market` | shared vocabulary and sums; stable sort and bisection; candles and strategy brackets |
| `Netting`, `Positions` | signed-quantity netting at the simulated broker and in the application's book |
| `Orders`, `Broker`, `Execution` | order state machine and idempotency index; simulated broker; submission |
| `ProtectiveStops`, `Reconciliation` | one resting stop per position against an unreliable venue; comparing the two books |
| `Risk`, `Correlation` | sizing and the gate; Pearson correlation and netted exposure |
| `Backtest`, `Paper`, `EngineAgreement` | the two engines, and the proof that they report the same trades |
| `Restart`, `TradeLock`, `Sessions`, `OptionsBatch` | journal and rebuild; two engines under a TTL lock; token rotation; batch remediation |
| `Swings`, `Structure`, `Zones`, `Liquidity` | the detectors: no look-ahead, and fast scans equal to the plain ones |
| `Payoff`, `Resampling`, `Replay` | options payoff sampling; timeframe aggregation; manual replay |

What the outside decides enters as a parameter: a broker's answer (`Answer`, `Luck`, `Script`), the
clock, the interleaving of concurrent requests (a sequence of steps), the gate's surroundings. A
strategy is an arbitrary function from the visible candles to an optional setup.

## Where the code does less than it says

* A stop placement that goes unanswered leaves no id behind, so a later successful call can leave a
  position with two live stops: `ProtectiveStops.UnansweredStopEscapes`. The bound that does hold
  counts those placements, and `ProtectiveStops.NewGuardIsAloneIff` says exactly which successful
  calls leave one live stop.
* `invalidated` on a gap or block is the one field an early exit does not settle:
  `Zones.EngulfedAfterTheExit` is a history whose one detected gap differs from the full scan, and
  `Zones.GapInvalidatedIff` and `Zones.BlockInvalidatedIff` say exactly when the two agree.
* A block's strength looks up to two candles past its break: `Zones.StrengthRepaints`.
  `Zones.StrengthIsFinalIff` says, from the candles seen so far, exactly when no continuation can
  change it. Every other field a block is created with does not look ahead.
* A fired stop-limit order fills at its limit, which may be better than the trigger the tape just
  crossed, although the comment there says neither kind can (`backend/app/brokers/mock.py:120-122`):
  `Broker.LimitBeatsItsTrigger`, with the exact condition in `Broker.FillAgainstTheTrigger`.
* Resampling through 30-minute to 4-hour bars into days or weeks disagrees with resampling directly.
  `Resampling.ResamplingComposes` gives the exact condition, and one candle at midnight on a Monday
  is the witness for every failing pair.
* The process that restarts forgets its run of consecutive broker rejections:
  `Restart.RestartForgetsRejections` is a run in which it approves what the live one refuses. That is
  the only thing the gate can tell it by: `Restart.GateSeesTheRestartOnlyInRejections` says exactly
  when the two decisions differ. An order whose key fell out of the one-day rehydration window is
  placed again after a restart, and counted without a row: `Restart.ForgottenOrderIsPlacedAgain` for
  every order, and `Restart.ResubmittedAfterRestart` says exactly when.
* A restored order has no filled quantity and no fill price, because the order row has no such
  columns; `Restart.Columns` is the record up to those two fields.
* Containing a replayed refresh token can miss the session of another rotation of the same user that
  commits between the snapshot and the revocation: `Sessions.AnotherRotationEscapes`;
  `Sessions.ContainmentLeavesTheUnseen` says exactly what is left.
* If a hold of the trade lock outlives its lease the other engine gets in:
  `TradeLock.OutlivedLeaseLetsBothIn`. That whoever is inside and in time owns the key
  (`TradeLock.NextKeepsLocking`), and that a late release removes nobody else's lock, need no such
  assumption.
* The gate is told the entry price, and exposure is carried at the fill price: an entry filled above
  its entry, which for a short is the better price, can take the account past the limit it was
  approved under: `TradeLock.ShortFilledHigherOverruns`. `TradeLock.FillFitsIff` says exactly which
  fills stay within it.
* With the correlated limit below the gross limit, an order can pass the one and fail the other:
  `Correlation.TighterCorrelatedLimitBites`, for every such pair of limits;
  `Correlation.GrossDecidesIff` says for exactly which limits the gross check decides.
* A break-even that falls exactly on the last sampled price is not reported, because the loop tests
  only the left end of each pair (`backend/app/options/payoff.py:123-127`):
  `Payoff.BreakevenAtTheEdgeIsLost`, with the exact condition in `Payoff.ZeroIsReportedIff`. Zeros on
  either side of a strike between two samples can be missed: `Payoff.StraddleBreakevensAreMissed`.
  `Payoff.ReportedInsideIff` says between which samples something is reported, and
  `Payoff.MissedZeroNeedsAStrike` that a straight stretch loses none.
* An options batch is to be unwound or halted whenever anything executed, but a partly filled leg
  does not count as executed (`backend/app/api/options.py:366-366`), so a batch whose fills are all
  partial is neither: `OptionsBatch.PartialFillStaysOpen`. `OptionsBatch.BatchIsGivenBackIff` says
  exactly which incomplete batches end with no instrument worse than before.

## Model

| member | source | states |
|---|---|---|
| Netting.NetLotWorth | backend/app/trading/position_manager.py:68-99 | one fill moves realized plus open profit at any mark by exactly what the fill is worth there, through adding, reducing, closing and flipping |
| Netting.NettingAgrees | backend/app/brokers/mock.py:310-340 | from agreeing positions the broker and the book net a fill to agreeing positions, and broker cash moves by the realized profit |
| Netting.WorthIsCashFlow | backend/app/trading/position_manager.py:68-99 | after any run, at any mark, the book's realized plus open profit is the sum over fills of signed quantity times (mark - price) |
| Netting.LedgersAgree | backend/app/brokers/mock.py:310-340 | after any run both ledgers hold the same signed quantity and average for every symbol (absent meaning flat), and cash less the starting balance is total realized profit |
| Netting.ReducingNeverFlips | backend/app/trading/position_manager.py:84-99 | an opposing fill no larger than the position leaves it on its side or flat, smaller by the fill, at the same average |
| Positions.MarkIsWorth | backend/app/trading/position_manager.py:101-106 | marking gives realized plus unrealized equal to the position's worth at the mark |
| Positions.PositionManager.Restore | backend/app/trading/position_manager.py:50-63 | each restored record replaces what its key held, later records winning |
| Positions.PositionManager.ApplyFill | backend/app/trading/position_manager.py:68-99 | the in-place update nets exactly one record and touches no other |
| Positions.PositionManager.MarkToMarket | backend/app/trading/position_manager.py:101-106 | marks an open position, leaves flat and unknown ones alone |
| Orders.RunKeepsWellFormed | backend/app/trading/order_manager.py:88-164 | over every run one key names one order and every event log is a path of the transition table |
| Orders.KeyIsForever | backend/app/trading/order_manager.py:93-122 | a key seen once names the same order for ever; its log only grows, terminal orders never move, and a resubmit returns it unchanged |
| Orders.NothingSubmittedUnapproved | backend/app/trading/order_manager.py:19-56 | no order reaches the broker without an approval on its log, none fills without an acknowledgement |
| Orders.OrderManager.CreateOrder | backend/app/trading/order_manager.py:93-122 | creates under a new key, returns the existing order under a known one |
| Orders.OrderManager.TransitionTo | backend/app/trading/order_manager.py:151-164 | moves and logs exactly along the table; unknown orders and illegal moves change nothing |
| Broker.PlaceKeepsWellFormed | backend/app/brokers/mock.py:188-286 | placement keeps the broker's records consistent: resting orders are on record, acknowledged and stops |
| Broker.PlacedAtOnce | backend/app/brokers/mock.py:188-286 | a non-stop order is settled in the same call: refused with nothing moved, or filled in full or part at the price reported |
| Broker.NothingCrossedStillRests | backend/app/brokers/mock.py:101-131 | after a market print no stop on the symbol that the price crossed is still resting |
| Broker.FillAgainstTheTrigger | backend/app/brokers/mock.py:101-131 | every stop a print goes through is filled whole, and at its trigger or worse if and only if it has no usable limit or one no better than its trigger |
| Broker.LimitBeatsItsTrigger | backend/app/brokers/mock.py:120-125 | a sell stop at 95 with a limit of 100, crossed by a print of 94, fills at 100 |
| Broker.SetQuoteKeepsWellFormed | backend/app/brokers/mock.py:52-91 | a quote keeps the broker's records consistent, and after a market print nothing it crossed still rests |
| Broker.QuietTape | backend/app/brokers/mock.py:52-131 | a print that crosses no stop of the symbol fires nothing |
| Broker.MockBroker.PlaceOrder | backend/app/brokers/mock.py:188-286 | the in-place broker takes exactly the placement step, every branch |
| Broker.MockBroker.TriggerRestingOrders | backend/app/brokers/mock.py:101-131 | fires every crossed stop of the symbol in placement order, each whole at its own limit or else at the tape |
| Broker.MockBroker.Quote | backend/app/brokers/mock.py:52-91 | records the quote, and lets stops fire only on a market print |
| Broker.MockBroker.CancelOrder | backend/app/brokers/mock.py:351-361 | cancels a live order, refuses an unknown one, leaves a settled one as it is |
| Broker.MockBroker.ApplyFillToPosition | backend/app/brokers/mock.py:310-340 | nets the holding, drops it when flat, moves cash by the realized profit |
| Execution.SettledOutcome | backend/app/trading/execution.py:21-72 | which status each kind of answer ends in, with a legal log and no illegal transition asked for |
| Execution.SubmitKeepsWellFormed | backend/app/trading/execution.py:21-72 | a submission keeps both the order book and the broker consistent |
| Execution.MarketOrderEffect | backend/app/trading/execution.py:21-72 | a market order with no adverse draw trades the same on both sides and disturbs nothing else |
| Execution.ExecutionEngine.SubmitOrder | backend/app/trading/execution.py:21-72 | the stateful engine takes exactly the submission step, both refusals included |
| Execution.ExecutionEngine.Answered | backend/app/trading/execution.py:34-72 | the second half of submit for any broker: rejected, unanswered, acknowledged, partly or fully filled |
| ProtectiveStops.AtMostOneStopPlusUnanswered | backend/app/trading/protective_stops.py:99-230 | after any sequence of fills, venue moves and calls, live stops number at most one plus the unanswered placements |
| ProtectiveStops.WhatTheResultMeans | backend/app/trading/protective_stops.py:138-230 | what each result of a call says about the stops really resting, for known and unknown fates |
| ProtectiveStops.UnansweredStopEscapes | backend/app/trading/protective_stops.py:194-212 | a run in which two stops are live with every recorded id in order |
| ProtectiveStops.NewGuardIsAloneIff | backend/app/trading/protective_stops.py:138-230 | after any run, a successful call leaves no live stop but its own if and only if none but the recorded one was live before it |
| ProtectiveStops.OnlyTheNewGuardIsLive | backend/app/trading/protective_stops.py:138-230 | with nothing unanswered, a successful call leaves no live stop but its own |
| ProtectiveStops.CancelProtectiveStop | backend/app/trading/protective_stops.py:99-135 | withdraws the recorded stop or keeps its id, by what the venue verifiably says |
| ProtectiveStops.EnsureProtectiveStop | backend/app/trading/protective_stops.py:138-230 | the stateful call takes exactly the step and returns its result |
| Reconciliation.ReconcileOrders | backend/app/trading/reconciliation.py:30-94 | reports nothing if and only if the order books agree, and one line per disagreeing order otherwise |
| Reconciliation.ReconcilePositions | backend/app/trading/reconciliation.py:97-113 | reports nothing if and only if every position agrees within tolerance |
| Reconciliation.Reconcile | backend/app/trading/reconciliation.py:116-133 | in_sync exactly when both agree |
| Reconciliation.SilentOnEveryQuietRun | backend/app/trading/reconciliation.py:30-133 | silent on every state reached by the application's own moves while no stop has fired |
| Reconciliation.FiredStopIsReported | backend/app/brokers/mock.py:101-131 | a stop that fires leaves the position books disagreeing |
| Risk.PositionSizeIsLargestWithinBudget | backend/app/risk/engine.py:122-132 | the size is the largest within both the risk budget and the cap |
| Risk.Evaluate | backend/app/risk/engine.py:140-325 | approves if and only if the written conditions hold, which is exactly when every recorded check passed |
| Risk.ApprovedEntryWithinExposure | backend/app/risk/engine.py:227-239 | an approved entry leaves a funded account whose exposure with it is within the limit |
| Risk.EntryChecksIgnoreRejections | backend/app/risk/engine.py:195-294 | the checks on taking risk do not read the run of broker rejections |
| Correlation.CauchySchwarz | backend/app/risk/correlation.py:68-92 | the squared covariance is at most the product of the variances, for series of any length |
| Correlation.PearsonBounds | backend/app/risk/correlation.py:68-92 | every coefficient lies in [-1, 1] and does not depend on the order of the two series |
| Correlation.PairedReturns | backend/app/risk/correlation.py:30-59 | returns are paired over the same intervals, those with a zero base dropped from both |
| Correlation.PairCorrelation | backend/app/risk/correlation.py:95-120 | one entry: the coefficient of the returns paired over the shared bars, and none when there is no such coefficient, as with fewer than three bars |
| Correlation.PairValueBounds | backend/app/risk/correlation.py:95-120 | it lies in [-1, 1], needs three shared bars, and is the same whichever symbol comes first |
| Correlation.BuildCorrelationMatrix | backend/app/risk/correlation.py:95-120 | every pair of symbols has an entry if and only if its shared bars, sorted, have a coefficient, the entry is that coefficient, and there are no others |
| Correlation.CorrelatedExposure | backend/app/risk/correlation.py:123-175 | the netted sum over correlated symbols, signs included |
| Correlation.NettedWithinGross | backend/app/risk/correlation.py:123-175 | the netted figure never exceeds gross, for any book, any other engine's book merged in, any matrix |
| Correlation.MergedWithinGross | backend/app/api/orders.py:725-735 | merging the two engines' signed books by addition never exceeds the sum of their gross books |
| Correlation.GrossGateDecidesFirst | backend/app/risk/engine.py:227-279 | with the correlated limit at least the gross one, a passing exposure check implies a passing correlated one |
| Correlation.TighterCorrelatedLimitBites | backend/app/risk/engine.py:262-279 | under every correlated limit below a gross limit of zero or more there is an order the first check passes and the second refuses |
| Correlation.GrossDecidesIff | backend/app/risk/engine.py:227-279 | passing the gross check implies passing the correlated one, for all books and orders, if and only if the correlated limit is at least the gross one or the gross one is negative |
| Market.BracketIsValid | backend/app/strategy/engine.py:60-137 | an emitted signal has its stop on the losing side and its target at the reward ratio; refusal exactly when it could not |
| Backtest.BacktestEngine.Run | backend/app/backtest/engine.py:96-155 | the loop over one open trade comes to the recursive account of it |
| Backtest.EquityIsCapitalPlusTrades | backend/app/backtest/engine.py:96-228 | the final equity is the starting capital plus the profits of the recorded trades |
| Backtest.AccountStaysSolvent | backend/app/backtest/engine.py:173-228 | with a sound configuration the equity never reaches zero, however the candles fall |
| Paper.RollingKeepsMarksTogether | backend/app/paper/engine.py:94-163 | the day and week marks always name one day and its week |
| Paper.LaggingFeedsChangeNothing | backend/app/paper/engine.py:122-163 | candles from days already reached hand back none of a day's or a week's budget |
| Paper.ApprovedSizeIsPositive | backend/app/paper/engine.py:270-530 | an approved entry has a positive size |
| Paper.RiskWindow.Roll | backend/app/paper/engine.py:122-163 | the in-place window rolls forward only |
| Paper.PaperTradingEngine.FeedCandle | backend/app/paper/engine.py:270-530 | a candle through gate, orders, broker and book comes to the engine's one-step account |
| Paper.PaperTradingEngine.MaybeExit | backend/app/paper/engine.py:532-578 | the stop before the target, the whole position, at the level |
| Paper.PaperTradingEngine.MaybeEnter | backend/app/paper/engine.py:285-530 | no entry without a signal, off the candle's range, or past the gate |
| EngineAgreement.CandleInStep | backend/app/backtest/engine.py:96-155 | one candle keeps the two engines in step and closes the same trade, if any |
| EngineAgreement.EnginesAgree | backend/app/paper/engine.py:270-578 | same trades, same final position, same balance, for every history, strategy and surroundings whose gate refuses nothing |
| EngineAgreement.RunSideBySide | backend/app/paper/engine.py:313-316 | the two classes run over one history report the same trades and balance, or the gate refused |
| Swings.WindowTest | backend/app/smc/swings.py:24-42 | being the extreme and occurring once in the window is being strictly beyond every neighbour |
| Swings.LabelSwings | backend/app/smc/swings.py:57-73 | the in-place labelling compares each swing with the last of its kind |
| Swings.DetectSwings | backend/app/smc/swings.py:17-54 | exactly the labelled pivots, in order, the sort by index included; a length below one is refused |
| Swings.DetectedOrdered | backend/app/smc/swings.py:52-54 | swings come out ordered by confirmation |
| Swings.LabelledOfVisible | backend/app/smc/swings.py:57-78 | labelling and hiding the unconfirmed commute |
| Swings.SwingsDoNotLookAhead | backend/app/smc/swings.py:17-78 | a truncated history has exactly the swings, labels included, confirmed before the cut |
| Structure.ByConfirmationSorts | backend/app/smc/structure.py:28-28 | the opening sort orders any list, loses nothing, and leaves detected swings as they are |
| Structure.DetectStructureEvents | backend/app/smc/structure.py:23-85 | the pointer loop over any swing list gives the candle-by-candle events |
| Structure.EventsAreConsistent | backend/app/smc/structure.py:44-83 | an event is a BOS if and only if it is first or goes the way of the one before; no swing breaks twice; every break is real |
| Structure.PromoteConfirmedShifts | backend/app/smc/structure.py:88-115 | the pending loop is the promotion function |
| Structure.PromotionOnDetectorOutput | backend/app/smc/structure.py:88-115 | on alternating events the shifts are the BOS directly after a CHoCH and nothing is cancelled |
| Structure.ShiftsFollowChoch | backend/app/smc/structure.py:88-115 | on detector output an MSS for each BOS directly after a CHoCH, and the cancel branch is dead |
| Structure.StructureDoesNotLookAhead | backend/app/smc/engine.py:85-117 | a truncated history has exactly the structure and MSS events before the cut |
| Zones.MitigatedExactlyWhenSpent | backend/app/smc/fvg.py:83-103 | mitigated if and only if some later candle has low <= bottom < high, mirrored for bearish; never for an empty zone |
| Zones.ScanIsComplete | backend/app/smc/fvg.py:52-103 | stopping at the first settling candle gives what scanning every later candle gives |
| Zones.ScanZone | backend/app/smc/fvg.py:83-103 | the early-exit loop returns the full scan's fill and verdict, and the first candle that spends the zone |
| Zones.EngulfedAfterTheExit | backend/app/smc/fvg.py:72-79 | a history with one detected gap, mitigated and not invalidated, that a later candle engulfs |
| Zones.GapInvalidatedIff | backend/app/smc/fvg.py:72-103 | a graded gap is never invalidated where no later candle engulfs it, and its flag is the full scan's unless it was filled gradually and engulfed only later, and exactly then |
| Zones.BlockInvalidatedIff | backend/app/smc/order_blocks.py:126-159 | the same of a graded block |
| Zones.DetectFvgs | backend/app/smc/fvg.py:8-49 | exactly the three-candle gaps of sufficient size, each graded in place |
| Zones.GapsDoNotLookAhead | backend/app/smc/fvg.py:8-49 | a truncated history has exactly the gaps made before the cut, in every field of their creation |
| Zones.MitigationOnlyGrows | backend/app/smc/fvg.py:52-103 | fill only grows and mitigation only sets as the history grows |
| Zones.UpdateGaps | backend/app/smc/fvg.py:52-103 | every gap just made is graded in place as by a full scan |
| Zones.UpdateBlocks | backend/app/smc/order_blocks.py:101-159 | every block just made likewise, with the index of the first candle that spends it |
| Zones.OriginIsLastOpposite | backend/app/smc/order_blocks.py:53-66 | the origin is the last candle of the opposite colour within the look-back, or there is none |
| Zones.AdjacentGap | backend/app/smc/order_blocks.py:40-78 | five lookups by index answer what scanning every gap would: is there one of the break's side within two candles of it |
| Zones.StrengthWithinUnit | backend/app/smc/order_blocks.py:70-83 | on candles with low <= high and no negative volume a strength lies in [0, 1], three tenths of it decided by an adjacent gap |
| Zones.StrengthLooksTwoAhead | backend/app/smc/order_blocks.py:70-83 | against the whole history a truncated one gives the same strength, or one three tenths short where the adjacent gap was still to come; never after two candles |
| Zones.StrengthIsFinalIff | backend/app/smc/order_blocks.py:70-83 | no continuation of a history changes the strength of a break in it if and only if an adjacent gap is there already or two candles have followed the break |
| Zones.StrengthRepaints | backend/app/smc/order_blocks.py:73-78 | a history whose strength at one break is three tenths lower before the next candle than after |
| Zones.DetectOrderBlocks | backend/app/smc/order_blocks.py:31-98 | one block per event that has an origin, in event order, each scored and graded |
| Zones.BlocksDoNotLookAhead | backend/app/smc/engine.py:85-117 | a truncated history has exactly the blocks whose break came before the cut |
| Sorting.SortSorts | backend/app/smc/liquidity.py:25-27 | the stable sort orders, keeps all elements, and leaves ordered lists alone |
| Sorting.SortedSet | backend/app/risk/correlation.py:113-113 | the elements of a set, taken in any order and sorted, are the set in ascending order |
| Sorting.BisectLeft | backend/app/smc/liquidity.py:46-46 | the position before which exactly the smaller prices lie |
| Sorting.BisectRight | backend/app/smc/liquidity.py:47-47 | the position before which exactly the prices not above lie |
| Liquidity.BandKeepsGroup | backend/app/smc/liquidity.py:33-52 | leaving out prices outside the band changes no group |
| Liquidity.BandedGroup | backend/app/smc/liquidity.py:46-52 | the bisected slice yields exactly the group of the full scan, for any tolerance |
| Liquidity.DetectEqualLevels | backend/app/smc/liquidity.py:17-81 | the banded detector returns exactly the pools of the quadratic scan |
| Liquidity.PoolsAreSound | backend/app/smc/liquidity.py:48-79 | pools of a type are disjoint, have two or more members near an anchor, are priced between them and formed at the last |
| Liquidity.UsedArePooled | backend/app/smc/liquidity.py:55-56 | a swing marked used is in a pool |
| Liquidity.LeftoversAreAlone | backend/app/smc/liquidity.py:35-56 | a swing left over has no other free swing within its tolerance |
| Liquidity.DetectSessionLevels | backend/app/smc/liquidity.py:84-143 | the running extremes are the candle-by-candle account |
| Liquidity.SessionLevelsAreExtremes | backend/app/smc/liquidity.py:84-143 | every level is the extreme of the whole period before the candle that formed it |
| Liquidity.EveryPeriodLeavesLevels | backend/app/smc/liquidity.py:118-138 | every change of period makes a level on each side |
| Liquidity.SessionLevelsDoNotLookAhead | backend/app/smc/liquidity.py:84-143 | a truncated history has exactly the leading levels formed before the cut |
| Liquidity.DetectSweeps | backend/app/smc/liquidity.py:146-189 | each pool records its first sweep by a non-member and whether it closed back, or is left alone |
| Liquidity.MembersNeverSweep | backend/app/smc/liquidity.py:154-189 | any sweep of an equal-level pool comes strictly after all its members |
| Payoff.NetPremium | backend/app/options/payoff.py:60-66 | the loop sums signed premium over legs and lots |
| Payoff.PayoffIsWorthLessPremium | backend/app/options/payoff.py:46-66 | the payoff is what the legs are worth at expiry less the net premium |
| Payoff.LinearBetweenStrikes | backend/app/options/payoff.py:40-53 | between strikes the payoff is a straight line |
| Payoff.PayoffLipschitz | backend/app/options/payoff.py:46-53 | the payoff moves by at most the total lots per unit of price |
| Payoff.ComputePayoffSummary | backend/app/options/payoff.py:69-141 | the summary with both refusals, for a given or the default range |
| Payoff.LossVerdict | backend/app/options/payoff.py:96-121 | on the default grid max_loss is None exactly when the payoff is unbounded below on prices from 0 |
| Payoff.LossError | backend/app/options/payoff.py:75-121 | otherwise it is above the true worst by at most half a grid step per lot |
| Payoff.WorstIsAtAKink | backend/app/options/payoff.py:90-95 | when bounded below, the true worst payoff is reached at price 0 or at a strike |
| Payoff.LossNearWorstKink | backend/app/options/payoff.py:75-121 | the reported loss is within the grid error of the payoff at the worst of those |
| Payoff.ProfitVerdict | backend/app/options/payoff.py:96-121 | max_profit is None exactly when the payoff is unbounded above |
| Payoff.ProfitError | backend/app/options/payoff.py:75-121 | otherwise it is below the true best by at most half a grid step per lot |
| Payoff.ProfitNearBestKink | backend/app/options/payoff.py:75-121 | when bounded above, the true best is reached at price 0 or at a strike, and the reported profit is within the grid error of it |
| Payoff.MirrorNegates | backend/app/options/payoff.py:46-53 | selling what is bought turns the payoff upside down |
| Payoff.SignChangeGivesBreakeven | backend/app/options/payoff.py:122-127 | neighbouring samples of opposite sign give a break-even strictly between them, exact if no strike is |
| Payoff.BreakevensComeFromPairs | backend/app/options/payoff.py:122-127 | every break-even reported is a zero at the left of a pair of samples or a sign change across one |
| Payoff.ZeroIsReportedIff | backend/app/options/payoff.py:122-127 | on an ascending range, a sample at which the payoff is exactly zero is reported if and only if it is not the last |
| Payoff.ReportedInsideIff | backend/app/options/payoff.py:122-127 | on an ascending range something is reported strictly between two neighbouring samples if and only if their signs are opposite |
| Payoff.MissedZeroNeedsAStrike | backend/app/options/payoff.py:122-127 | a true zero between two samples of one sign has a strike between them |
| Payoff.StraddleBreakevensAreMissed | backend/app/options/payoff.py:75-127 | a cheap straddle breaks even at two prices around its strike, and no break-even is reported |
| Payoff.ReportedIsNearAZero | backend/app/options/payoff.py:122-127 | whatever strikes lie between two samples of opposite sign, the break-even reported there is less than their distance from a true one |
| Payoff.BreakevenAtTheEdgeIsLost | backend/app/options/payoff.py:75-127 | a long call whose break-even is the last price of its default range is reported without it |
| Resampling.BucketContains | backend/app/market/aggregation.py:40-102 | a bucket contains its timestamps |
| Resampling.BucketIsMonotone | backend/app/market/aggregation.py:40-102 | later timestamps never fall into earlier buckets |
| Resampling.BucketIsIdempotent | backend/app/market/aggregation.py:40-102 | a bucket's start is its own bucket |
| Resampling.BucketStartIsGrid | backend/app/market/aggregation.py:86-102 | every timeframe, the Monday-anchored week included, is a grid of fixed step and offset |
| Resampling.ResamplingComposes | backend/app/market/aggregation.py:98-163 | two hops equal one on every candle list if and only if the coarse grid is made of fine grid points |
| Resampling.WhichGridsNest | backend/app/market/timeframes.py:18-23 | which valid pairs those are: all but 30 minutes to 4 hours into days or weeks |
| Resampling.MidnightSplits | backend/app/market/aggregation.py:98-102 | for the others the bucket around midnight opens the day before |
| Resampling.ResamplingConserves | backend/app/market/aggregation.py:105-163 | total volume, highest high and lowest low are kept |
| Resampling.AggregateIs | backend/app/market/aggregation.py:105-115 | first open, last close, the extremes, the whole volume |
| Resampling.AggregateCandles | backend/app/market/aggregation.py:105-115 | the aggregate of a group; an empty list is refused |
| Resampling.ResampleCandles | backend/app/market/aggregation.py:118-163 | dictionary grouping, key sort and group sort come to one pass over the sorted candles; invalid pairs refused |
| Resampling.SortThenChoose | backend/app/market/aggregation.py:143-150 | the stable sort and the choice of a bucket commute |
| Replay.EveryReachedSessionIsSane | backend/app/replay/engine.py:97-206 | in every reachable session balance is start plus closed P&Ls, below the bound, and no advance can raise |
| Replay.CheckNeverRaises | backend/app/replay/engine.py:125-197 | a level in place was admitted by the test the close repeats |
| Replay.AdvanceNeverRaises | backend/app/replay/engine.py:199-206 | advancing by any number of steps never raises and stops at the last candle |
| Replay.RMultipleIsPnlOverRisk | backend/app/replay/engine.py:151-182 | R times the risk first taken times quantity is the P&L, wherever the stop moved |
| Replay.ReplayClock.NextCandle | backend/app/replay/clock.py:62-69 | moves one candle, finishes at the last |
| Replay.ReplayClock.VisibleCandles | backend/app/replay/clock.py:33-34 | a prefix ending at the cursor |
| Replay.ReplayEngine.SetStop | backend/app/replay/engine.py:134-140 | admits a recordable level and fixes the initial stop once |
| Replay.ReplayEngine.Close | backend/app/replay/engine.py:151-182 | books the trade or refuses before changing anything |
| Replay.ReplayEngine.Advance | backend/app/replay/engine.py:199-206 | the in-place loop is the specification and keeps the session sane |
| Replay.ReplayEngine.ReportStatistics | backend/app/replay/engine.py:208-212 | the reported ending balance is the session's balance |
| Replay.MaxDrawdown | backend/app/replay/statistics.py:45-51 | the one-pass loop finds the maximum of equity[i] - equity[j] over i <= j |
| Replay.ComputeStatistics | backend/app/replay/statistics.py:22-72 | every statistic before rounding |
| Replay.ProfitsLessLosses | backend/app/replay/statistics.py:25-43 | gross profit less gross loss is net; the loss sum is zero exactly when no trade lost |
| OptionsBatch.LegEffect | backend/app/api/options.py:432-459 | the opened quantity can be given back without passing through flat and leaves the position no worse; zero means no worse already |
| OptionsBatch.SubmittedAccounted | backend/app/api/options.py:976-1014 | after any legs each instrument is no worse or has exactly one opening that gives back |
| OptionsBatch.UnwindNeverFlips | backend/app/api/options.py:612-632 | an unwind never flips a position, whatever part of it fills |
| OptionsBatch.BatchIsGivenBackIff | backend/app/api/options.py:547-645 | of the batches not executed completely, each unwind filled, those that end with no instrument worse than before are exactly those that opened nothing, or have no unknown leg and some leg completely filled |
| OptionsBatch.PartialFillStaysOpen | backend/app/api/options.py:594-601 | a batch of one leg half filled: nothing unwound, nothing halted, the half left open |
| OptionsBatch.BatchKeepsUnwindsFollowingLegs | backend/app/api/options.py:547-632 | if the unwinds of every batch follow its legs before a batch, they do after it, so each next batch may start from that |
| OptionsBatch.RemediationDecision | backend/app/api/options.py:594-646 | it halts exactly when a fate is unknown or some legs were completely filled and some not, leaves an unknown fate alone, and neither trades nor halts when no leg was completely filled, partly filled ones included |
| OptionsBatch.OptionsDesk.SubmitOneLeg | backend/app/api/options.py:369-459 | the stateful leg takes exactly the step and measures what it opened |
| OptionsBatch.OptionsDesk.SubmitLegs | backend/app/api/options.py:976-1014 | the leg loop is the batch |
| OptionsBatch.OptionsDesk.Remediate | backend/app/api/options.py:547-669 | the decision by counts and the unwinding loop are the remediation |
| Sessions.EachTokenRotatesOnce | backend/app/auth/service.py:75-143 | in every interleaving a token issues at most one new pair |
| Sessions.RefusedLeavesRows | backend/app/auth/service.py:75-182 | a refused request changed no row in any of its statements |
| Sessions.ReplayLeavesNothingLive | backend/app/auth/service.py:145-173 | containing a replay leaves the user no live session if no rotation of theirs is in flight |
| Sessions.RacingWinnerIsCutOff | backend/app/auth/service.py:85-173 | the losing racer blocks, then revokes the winner's new session too |
| Sessions.ContainmentLeavesTheUnseen | backend/app/auth/service.py:160-172 | whatever runs between the look and the revocation, what stays live is exactly what a sign-in or a committed rotation of the user opened in between and nothing has revoked |
| Sessions.AnotherRotationEscapes | backend/app/auth/service.py:75-172 | a run from two live sessions and nothing in flight in which a contained replay leaves a session alive |
| Sessions.AloneIsRefresh | backend/app/auth/service.py:75-182 | the statements of an unopposed request amount to the sequential account |
| Sessions.SessionStore.Refresh | backend/app/auth/service.py:75-182 | issue, contain or refuse, each exactly when, and what each leaves |
| Sessions.SessionStore.GetActiveSession | backend/app/auth/service.py:185-198 | a session answers exactly when present, not revoked and not expired |
| TradeLock.TradeLockKey.TryAcquire | backend/app/core/redis.py:393-410 | taken exactly when free, with a fresh lease |
| TradeLock.TradeLockKey.Release | backend/app/core/redis.py:385-417 | deletes only its own token |
| TradeLock.NextKeepsLocking | backend/app/core/redis.py:381-417 | every step, timely or not, keeps it that an engine inside whose lease still runs owns the key: from taking it only when free and deleting it only under one's own token |
| TradeLock.AtMostOneInside | backend/app/core/redis.py:337-417 | after every run, whenever no hold has outlived its lease at most one engine is in its critical section |
| TradeLock.StaleReleaseIsHarmless | backend/app/core/redis.py:381-417 | a late release never removes another holder's lock |
| TradeLock.OutlivedLeaseLetsBothIn | backend/app/core/redis.py:366-372 | past the lease both can be inside |
| TradeLock.EntryAddsNotional | backend/app/api/orders.py:688-690 | an entry adds exactly its own notional to gross exposure |
| TradeLock.ReductionLowersNotional | backend/app/api/orders.py:766-795 | a clamped reduction never raises it |
| TradeLock.FillFitsIff | backend/app/paper/engine.py:335-351 | a fill leaves the exposure within the bound if and only if it reduces or its own cost fits under it |
| TradeLock.FullFillWithNoSlack | backend/app/paper/engine.py:335-351 | with no room to spare, a full fill stays within the bound exactly at or below the gated price, on either side |
| TradeLock.ShortFilledHigherOverruns | backend/app/paper/engine.py:335-351 | a run under the lock in which an approved short filled above its entry passes the limit |
| TradeLock.TightEntryExists | backend/app/paper/engine.py:335-351 | concrete limits and a concrete entry for that run |
| TradeLock.NextKeepsSafe | backend/app/api/orders.py:637-803 | a step of either engine after which no hold is outlived, and which fills no entry for more than it was gated at, keeps lock, mirrors and exposure bound |
| TradeLock.ExposureStaysWithinLimit | backend/app/paper/engine.py:335-351 | in every interleaving with no hold outlived and no entry filled for more than gated, both books together stay within the limit on the balance the last approved entry was gated on |
| Restart.RollKeepsCounters | backend/app/api/orders.py:112-131 | rolling the window is counting from the new window's start |
| Restart.PersistOrderIsExact | backend/app/trading/persistence.py:44-121 | persisting an order that only grew leaves its row equal to it, with its events appended once |
| Restart.NextKeepsInStep | backend/app/trading/persistence.py:44-243 | every step, restarts included, keeps stack and journal in step |
| Restart.RestartIsInvisible | backend/app/api/orders.py:307-389 | at every point of every run the rebuilt stack has the live one's open book, counters, window and day of orders with their logs |
| Restart.GateSeesTheRestartOnlyInRejections | backend/app/api/orders.py:112-131 | the gate decides alike for both, except by the run of broker rejections, and exactly then |
| Restart.RestartForgetsRejections | backend/app/api/orders.py:307-389 | a run of three rejections after which the live gate refuses, and the restarted one approves, the same order |
| Restart.ForgottenOrderIsPlacedAgain | backend/app/trading/persistence.py:435-444 | every order placed, then a restart more than a day later: the same request is new again and counts one trade more than the journal holds |
| Restart.ResubmittedAfterRestart | backend/app/trading/persistence.py:435-444 | after a restart an order on record is recognised if and only if its row is at most a day old, and otherwise is counted without a row |
| Restart.TradingJournal.SaveOrder | backend/app/trading/persistence.py:44-121 | upsert on the key, events beyond those stored appended one by one |
| Restart.TradingJournal.SavePosition | backend/app/trading/persistence.py:180-243 | the one open row of a position, updated or closed |
| Restart.TradingJournal.LoadRealizedPnlSince | backend/app/trading/persistence.py:577-596 | the journal's profit since a moment |
| Restart.UserTradingStack.Rebuild | backend/app/api/orders.py:307-389 | the constructor gives the rebuilt stack |
| Restart.UserTradingStack.RollRiskWindow | backend/app/api/orders.py:112-131 | resets day and week counters on a change only |
| Restart.UserTradingStack.PlaceOrder | backend/app/api/orders.py:846-1074 | the sequence of effects on stack and journal, gate refusals included |

## Left out

- FastAPI routing, schemas, websockets, metrics, logging, audit rows, notifications, migrations and the mobile client: no deep property.
- SQLAlchemy, Postgres and Redis: only the atomic effects relied on are modelled (conditional UPDATE with a row lock, upsert on a key, SET NX with an expiry, compare-and-delete). Redis being unreachable is not.
- Real broker adapters, OAuth, JWT and password hashing: a broker is any sequence of answers, a token hash is injective.
- Records inside the managers' dictionaries are values filed under their key; two references to one `OrderRecord`, `PositionRecord` or `BrokerOrder` seeing each other's changes are not captured.
- Orders and fills of zero quantity: fills are assumed positive. The broker's own marks and equity, `modify_order`, strategy ids on positions and event times are not modelled.
- Identifiers from `uuid4` are natural numbers issued in increasing order; idempotency keys are structured values, so two call sites whose joined strings coincide are not captured.
- The square root in `Correlation` is a parameter with its defining property.
- Reconciliation of several accounts at once, and its text messages: mismatches are values.
- ProtectiveStops follows one position and one venue; requests of one account are atomic with respect to the clock.
- EngineAgreement.EnginesAgree: R-multiples are not compared, costs and slippage are zero and the gate refuses nothing, as the engines themselves differ otherwise.
- Zones.UpdateGaps: grading a gap a second time; the detector grades each gap once, when it has just made it.
- Zones.UpdateBlocks: likewise grading a block a second time.
- Equal-level pools are regrouped as swings arrive and are not claimed to be stable under truncation; session levels are.
- Restart.RestartIsInvisible: the account balance is an input, unrealized marks are not compared, rejection reasons are taken to fit their column, and an order is not resubmitted across a restart after its key left the one-day window.
- TradeLock.ExposureStaysWithinLimit: fills of an entry cost no more than it was gated at (at or below the gated price, on either side), a process does not die between a fill and its mirroring, and no hold outlives its lease.
- TradeLock.TradeLockKey.TryAcquire: one turn of the polling loop; the waiting between turns and its deadline are steps of other processes and of the clock.
- Sessions: each statement is one atomic step; a containment that blocks on a row waits with nothing revoked.
- OptionsBatch: the combined-payoff gate, liquidity and the notification texts; a broker that later completes a partly filled leg.
- Payoff: the ten named strategy builders are plain lists of legs, and Greeks use transcendental functions; neither is modelled.
- Replay: pausing, speed and reset of the clock, and the analysis shown beside it.
- Rounding of reported figures, a block's strength included: all results are stated before rounding.
