# A verified model of the market-making engine

The program quotes both sides (YES and NO) of short binary markets. An engine decides; an executor places,
cancels and takes orders for it; fills come back twice, from the user channel as cumulative reports and from the
status query after a cancel. This project models that program and proves what it is supposed to guarantee.

`dafny verify dfyconfig.toml` checks everything.

## How the model is laid out

| file | what it models |
|---|---|
| `Common`, `Arithmetic`, `FillEngine`, `Sizing`, `FokSize`, `Position` | sides, exact arithmetic, rounding and fees, the order-size ladder, the fill-or-kill size search, positions |
| `Quoting`, `BuildupGuard`, `Orders`, `Strategy`, `Executor` | the quoter, the buildup guard, the messages, the engine and its quote tick, the executor |
| `Lifecycle` | the whole system: engine, its private command buffer, both channels, executor, and the exchange's account of every order |
| `Protocol`, `TickContract`, `ProtocolRuns` | the per-side protocol invariant, every branch of the tick, and the invariant over all runs |
| `CancelOnce`, `FillAccounting`, `TakerAccounting`, `Drain` | at most one cancel result per order, exactly-once fills and rebalances, and what the drain test means |
| `InventoryLimits`, `ExchangeLimits` | maker cap and imbalance bound, for what the engine has booked and for what the exchange has matched |
| `QuoteContract`, `QuietTicks` | what a tick promises, and what it does on a quiet market |
| `PairCost`, `RebalanceGuard`, `FineTicks` | pair cost: the law over runs, and exactly when each guard keeps it |
| `OpenRoom`, `FillingUp`, `PeakCost`, `FlatBooks` | what can still fill until the next tick, continuations that fill it, and the dearest pair they can make |
| `Episodes`, `DearPairs`, `UnfinishedDrain` | runs of the whole system that end where they should not |
| `FairValue`, `Ema`, `Volatility` | strike, fair values, signal trackers, the volatility ring buffer |
| `Rotation`, `Calendar` | market rotation and the dates it reads |
| `Sbe`, `SbeDecimal` | the binary market data decoder, a reference encoder, and the conversion of mantissas and exponents |

Objects that the program updates in place are classes; each of their methods is proved to compute a function on
plain values (`View()` before, `View()` after), and everything about whole histories is proved about those
functions. Lists, loops and arrays are where the program has them.

`Decimal` and `f64` are exact reals, so rounding of floating point and of 28-digit decimals is not modelled; integer
widths are written out where they matter (`Calendar`, `Sbe`). Logarithm, exponential, square root and the normal
distribution are parameters.

A run is a sequence of actions: the exchange matches, a report arrives, the executor answers, the engine consumes,
ticks, flushes its buffer, pauses, loses its heartbeat. Whatever the outside world chooses is a parameter of the
action, so the theorems about runs hold for every interleaving. The hypotheses are the ones the protocol needs:

- a market epoch starts quiescent (nothing resting, nothing under way), see
  `ProtocolRuns.RotationIsSafeExactlyWhenQuiescent` for why;
- order ids are unique, and the exchange never reports more than it matched nor matches more than an order's size;
- the ask a rebalance takes is a whole number of `1 / scale`.

## Where the code does not keep what it is meant to keep

Each of these is proved, with the exact condition under which the code does keep it.

- A rebalance goes to the strictly lagging side in every state exactly when the rebalance threshold is positive; with
  a threshold of zero or less a level position buys YES
  (`QuoteContract.RebalancesStayOnTheLaggingSideExactlyForPositiveThresholds`).
- Wanted rebalances keep a pair below a dollar, in every state and however much of them fills, exactly when the limit
  of the guard is below a dollar (`RebalanceGuard.GuardKeepsPairsCheapExactlyBelowADollar`). The shipped `config.toml`
  sets 1.01. For every trading configuration with a limit of a dollar or more whose imbalance limits one order reaches,
  runs of the system end with a pair that costs as much as the limit lets through (`DearPairs.RebalanceCanCostADollar`);
  the shipped one is among them (`DearPairs.ShippedConfigurationCostsADollar`).
- Maker orders of both sides pass their guards one after the other and then fill together: for every trading
  configuration, whatever its rebalance limit and requote threshold, a run on a whole-cent market ends with a pair that
  costs a dollar (`DearPairs.OrdersOpenTogetherCanCostADollar`). A trading configuration is one with room for an order
  worth a dollar near even prices (`Episodes.Trades`). As long as nothing has filled yet, fills keep pairs below a
  dollar until the next tick exactly when the prices that can fill on the two sides add up to less than a dollar
  (`FlatBooks.FillsStayCheapExactlyForFillablePrices`). With shares already held, the pair cost stays within the sum of
  the two sides' peaks, and reaches it (`PeakCost.PeaksAreTheHighestPairCost`).
- The test for being done with a market (`has_no_open_position`), on which the process ends, does not look at the
  pending rebalance. When it succeeds, and cancels are reliable, a side's position is what the exchange matched and sold
  exactly when no filled rebalance of that side waits in the channel
  (`Drain.NothingOpenMeansPositionIsTrueExactly`); that the rebalance is not pending is enough
  (`Drain.NothingPendingMeansPositionIsTrue`). A run of the system ends with the test succeeding while the exchange has
  sold shares the position does not show (`UnfinishedDrain.DoneWithoutThePosition`).
- The executor rounds every maker price to a cent once more. Of all ticks up to a cent exactly the whole cent makes it
  place every posted order at a price that keeps pairs below a dollar; for every finer one some engine state posts an
  order that is lifted to a dollar a pair (`FineTicks.OrdersArePlacedAffordablyExactlyOnWholeCents`).
- The fill-or-kill search finds a size exactly when a whole number of steps of `scale / gcd(price, scale)` falls into
  one of its two ranges (`FokSize.SafeSizeIsFoundExactly`). So it finds one for every price of `k` decimals exactly up
  to four decimals (`FokSize.AlwaysFoundExactlyUpToFourDecimals`).
- The hysteresis of the buildup guard follows its closed form exactly when the thresholds are ordered
  (`BuildupGuard.ClosedFormHoldsExactlyForOrderedThresholds`).
- The strike is reported as set even when the median of the warm-up prices is not positive, and is then not set
  (`FairValue.ReportedStrikeIsSetExactly`).
- A velocity tracker's value depends on how often an unchanged value arrives (`Ema.VelocityIsRateIndependentExactly`),
  although its comments claim smoothing independent of cadence.
- A volatility tracker whose ring is shorter than its warm-up reports itself warm while it still returns the default
  (`Volatility.WarmFlagAgreesExactly`).
- Dates before 1970 wrap around (`Calendar.ClosedFormIsLoopFormExactlyFrom1970`), and the parser ignores the zone of a
  text, so it is off by the offset the zone names and right exactly for the zero offsets
  (`Calendar.ParsedInstantIsRightExactlyForZeroOffsets`, `Calendar.ParsedInstantIsOffByTheOffset`).
- The decimal conversion of the decoder panics or wraps for extreme exponents (`SbeDecimal.ConversionIsExactExactly`);
  the exponents with which no message can make it panic are exactly those from -28 to 9 and from 64 on
  (`Sbe.DepthNeverFaultsExactly`, `Sbe.TradesNeverFaultExactly`).

Where documents and code disagree the model follows the code: `ARCHITECTURE.md` says a price is floored to the tick,
the code rounds to the nearest tick with halves to even; `V2_SYSTEM.md` compares the rebalance pair cost strictly,
the code does not; the closing phase, the spread guard and sizing by paired shares that the documents describe are
not in the code.

## Model

| member | source | states |
|---|---|---|
| Sizing.MaxTotalShares | src/engine/quoter.rs:102-111 | the loop returns the sum of the first `batches` rungs of the ladder |
| Sizing.DynamicOrderSize | src/engine/quoter.rs:122-134 | the early-returning loop returns the size of the first batch whose running total lies above the shares held |
| Sizing.RungClosedForm | src/engine/quoter.rs:102-111 | repeated halving floored at the minimum each time is one division floored once |
| Sizing.DynamicSizeIsTheBracketingRung | src/engine/quoter.rs:122-134 | a batch is chosen if and only if its cumulative interval contains the shares; beyond the last one the minimum is offered |
| Sizing.DynamicSizeBounds | src/engine/quoter.rs:122-134 | the size offered is never below the minimum or above the maximum |
| Sizing.DynamicSizeAntitone | src/engine/quoter.rs:122-134 | a side that holds more is never offered more |
| Sizing.SizeGuardStopsExactlyAtTheRemainder | src/engine/quoter.rs:219-238 | the size guard refuses a post exactly when less than one minimum order is left under the cap |
| Sizing.FullFillsReachTheCap | src/engine/quoter.rs:197-238 | orders that each fill completely reach the cap after exactly `batches` of them and never pass it |
| FillEngine.RoundHalfEvenIsNearest | src/executor/fill_engine.rs:21-26 | rounding gives an integer no other integer is closer than |
| FillEngine.RoundToTickProperties | src/executor/fill_engine.rs:21-26 | the rounded price is on the grid, at most half a tick away, and unchanged exactly for grid prices |
| FillEngine.ReRoundingIsIdentityExactlyOnCents | src/executor/live.rs:155-156 | the executor's second rounding leaves a price alone exactly when it is a whole number of cents |
| FillEngine.TruncateToCentsBounds | src/executor/live.rs:157 | truncating a size loses less than a hundredth and never adds |
| FillEngine.TakerFeeNonNegative | src/executor/fill_engine.rs:35-40 | the taker fee of a purchase is never negative |
| FokSize.ClobSafeFokSize | src/executor/live.rs:30-72 | the downward and upward searches terminate and return the specified size |
| FokSize.SafeSizeIsLargest | src/executor/live.rs:41-60 | if any size up to the request is acceptable, the result is acceptable and the largest such |
| FokSize.SafeSizeIsSmallestAboveOneDollar | src/executor/live.rs:62-72 | otherwise it is the smallest size from the one-dollar minimum on with a two-decimal cost |
| FokSize.SafeSizeNeverZero | src/executor/live.rs:30-72 | for prices of at most four decimals some size is always found |
| FokSize.SafeSizeOvershoot | src/executor/live.rs:30-72 | the result stays within the request or within the search window above one dollar's worth; with two-decimal prices it never exceeds the larger of the two |
| FokSize.SafeSizeIsFoundExactly | src/executor/live.rs:30-72 | some size is found if and only if a multiple of the price's step `scale / gcd(price, scale)` lies within the request and worth a dollar, or within the fallback window |
| FokSize.AlwaysFoundExactlyUpToFourDecimals | src/executor/live.rs:30-72 | prices of `k` decimals always get a size if and only if `k` is at most four |
| Position.SidePosition.RecordFill | src/engine/position.rs:49-58 | one fill changes shares, cost, rebate, fee and count of the side as specified |
| Position.BilateralPosition.RecordFill | src/engine/position.rs:91-100 | one fill changes its own side and leaves the other alone |
| Position.SidePosition.Reset | src/engine/position.rs:60-67 | a reset side is flat |
| Position.BilateralPosition.Reset | src/engine/position.rs:165-168 | a reset position is the empty one |
| Position.NetWorstOfHistory | src/engine/strategy.rs:1167-1183 | for every history of fills the reported worst case is the minimum over both resolutions of payout minus cost minus taker fees |
| Position.NetWorstIsTheWorseResolution | src/engine/position.rs:103-159 | locked profit minus fees minus unpaired money equals the worse resolution of any sound position |
| Position.PositionDependsOnlyOnTheFills | src/engine/position.rs:49-58 | histories with the same multiset of fills end in the same position |
| Position.AvgStaysBelow | src/engine/position.rs:41-58 | a fill below a bound keeps an average below that bound |
| Position.CheapPairsLockProfit | src/engine/position.rs:103-120 | pairs bought below a dollar lock a positive profit |
| Quoting.Quoter.EvaluateSide | src/engine/quoter.rs:177-285 | the chain of guards returns the specified decision: hold, post, or cancel a drifted order |
| Quoting.Quoter.OnOrderPosted | src/engine/quoter.rs:289-300 | installs the order and clears the pending post of its side only |
| Quoting.Quoter.OnOrderFailed | src/engine/quoter.rs:302-311 | clears the pending post of its side only |
| Quoting.Quoter.OnCancelSent | src/engine/quoter.rs:313-318 | marks the pending cancel of its side only |
| Quoting.Quoter.OnCancelResult | src/engine/quoter.rs:320-345 | forgets the order, remembers it as last cleared with what was booked, and clears the pending cancel |
| Quoting.Quoter.OnFill | src/engine/quoter.rs:347-372 | a full fill clears and remembers the order, a partial one changes nothing |
| Quoting.Quoter.RecordWsFill | src/engine/quoter.rs:374-390 | returns the part of a cumulative report that is new and raises the booked amount to the report |
| Quoting.Quoter.MarkPostPending | src/engine/quoter.rs:392-397 | marks the pending post of its side only |
| Quoting.Quoter.Reset | src/engine/quoter.rs:457-466 | both sides are idle again |
| Quoting.ReportsAddUpToTheLargest | src/engine/quoter.rs:374-390 | the deltas of any sequence of cumulative reports add up to the largest report |
| Quoting.DuplicatesAndOrderDoNotMatter | src/engine/quoter.rs:374-390 | repeated and reordered reports book the same shares and leave the same state |
| BuildupGuard.BuildupScore | src/engine/strategy.rs:1332-1356 | the counting loop computes the score the guard acts on |
| BuildupGuard.ScoreIsAVetoedWeight | src/engine/strategy.rs:1273-1295 | the score lies in [0, 1], and opposed signals veto it |
| BuildupGuard.GuardFollowsTheLatestVerdict | src/engine/strategy.rs:1297-1328 | with ordered thresholds the guard is active exactly if the latest score outside [live, dark) was at least dark |
| BuildupGuard.DarkeningsAreSeparated | src/engine/strategy.rs:1297-1328 | between two darkenings some score was below the live threshold |
| BuildupGuard.GuardIsActiveExactlySinceDark | src/engine/strategy.rs:1297-1328 | with ordered thresholds the guard is active if and only if some score was at least dark and none since fell below live |
| BuildupGuard.ClosedFormHoldsExactlyForOrderedThresholds | src/engine/strategy.rs:1297-1328 | the closed form holds for all histories if and only if live is at most dark |
| Strategy.StrategyEngine.OnTradeStatusUpdate | src/engine/strategy.rs:507-574 | a user report changes the engine as the update function says |
| Strategy.StrategyEngine.HandleFeedback | src/engine/strategy.rs:578-687 | each feedback message changes position, quotes, book age and rebalance flag as the feedback function says |
| Strategy.StrategyEngine.CancelAll | src/engine/quoter.rs:399-418 | cancels and marks exactly the resting orders without a cancel under way |
| Strategy.StrategyEngine.CancelSide | src/engine/quoter.rs:422-434 | the same for one side |
| Strategy.StrategyEngine.HeartbeatStatus | src/engine/strategy.rs:380-412 | only the step from healthy to dead stages cancels, through the engine's own buffer |
| Strategy.StrategyEngine.Pause | src/engine/strategy.rs:979-998 | pausing cancels at once, resuming sends nothing |
| Strategy.StrategyEngine.TakePendingCommands | src/engine/strategy.rs:965-967 | hands over the buffer and empties it |
| Strategy.StrategyEngine.CheckBuildupGuard | src/engine/strategy.rs:1266-1329 | the guard flag follows the hysteresis step on the score |
| Strategy.StrategyEngine.QuoteMakers | src/engine/strategy.rs:805-902 | zone cancels end the tick, otherwise each side's decision is marked and sent |
| Strategy.StrategyEngine.Rebalance | src/engine/strategy.rs:904-957 | sends a taker order for the other side of the imbalance when all four conditions hold, after cancelling the maker there |
| Strategy.StrategyEngine.Tick | src/engine/strategy.rs:691-961 | the whole quote tick changes the engine and emits commands as the tick function says |
| Strategy.StrategyEngine.HasNoOpenPosition | src/engine/strategy.rs:1000-1004 | true exactly if no maker order rests and no post or cancel is pending; a pending rebalance is not looked at |
| Strategy.DynamicMaxBounds | src/engine/strategy.rs:1368-1370 | the dynamic maximum lies between an even price and the configured maximum |
| Executor.LiveExecutor.HandlePostOrder | src/executor/live.rs:142-207 | exactly one answer to a post, with the rounded price and truncated size |
| Executor.LiveExecutor.HandleCancel | src/executor/live.rs:211-235 | exactly one answer to a cancel, carrying the status query's figure |
| Executor.LiveExecutor.HandleRebalanceTaker | src/executor/live.rs:239-302 | exactly one answer to a rebalance, never reporting more than was sent |
| Executor.LiveExecutor.OnMarketRotation | src/executor/live.rs:306-365 | trading is allowed after a rotation if and only if there is a client and, for both tokens, the id parsed and tick size, negative-risk flag and fee rate were all fetched |
| Executor.SafeSharesBound | src/executor/live.rs:254-280 | a rebalance worth a dollar overshoots the request by less than one share on two-decimal prices |
| ProtocolRuns.StepKeepsInv | src/engine/quoter.rs:289-397 | every action keeps the per-side protocol invariant |
| ProtocolRuns.RunKeepsInv | src/engine/quoter.rs:289-434 | every run keeps it |
| ProtocolRuns.SideProtocol | src/engine/quoter.rs:289-434 | in every reachable state a resting order excludes a pending post, the flags exclude each other, each flag stands for exactly one message under way, and a cancel is about the resting or last cleared order |
| ProtocolRuns.FeedbackNeverDropped | src/main.rs:79-82 | at most three answers ever wait, so the bounded channel drops none |
| ProtocolRuns.RotationIsSafeExactlyWhenQuiescent | src/engine/strategy.rs:471-478 | after the reset at a rotation the flags match the messages if and only if nothing was pending |
| CancelOnce.EveryOrderIsCancelledAtMostOnce | src/engine/strategy.rs:638-667 | in every run the engine consumes at most one cancel result for each order |
| CancelOnce.CancelResultIsIdempotentExactly | src/engine/quoter.rs:439-455 | a repeated cancel result books nothing exactly when the first booked nothing |
| CancelOnce.CancelResultEndsTheOrder | src/engine/quoter.rs:320-345 | after its cancel result an order is neither held nor subject of any message |
| FillAccounting.NeverOverbooked | src/engine/strategy.rs:507-574 | in every run what is booked for an order never exceeds what was matched, and the position is the sum of the bookings |
| FillAccounting.SettledForever | src/engine/strategy.rs:507-574 | a fully booked, finished order is never booked again, whatever late reports arrive |
| FillAccounting.FullUserFillSettles | src/engine/strategy.rs:547-553 | a user report that completes an order books all of it |
| FillAccounting.CancelResultBooksTheRest | src/engine/strategy.rs:638-667 | a cancel result raises the booking to its figure; the order is then fully booked if and only if the figure was final or it already was |
| TakerAccounting.RebalancesAreBookedExactlyOnce | src/engine/strategy.rs:669-687 | in every run the rebalances booked plus the filled answer under way are exactly what the exchange has sold to rebalances |
| TakerAccounting.UnheardIsInTheChannel | src/engine/strategy.rs:669-687 | sold shares are missing from the position exactly while a filled answer waits in the feedback channel, and then the rebalance is pending |
| Drain.NothingOpenMeansPositionIsTrueExactly | src/engine/strategy.rs:1000-1004 | with reliable cancels, when the test says nothing is open, no order can be matched any further, and a side's position is all that the exchange matched and sold if and only if no filled rebalance of the side waits in the channel |
| Drain.NothingPendingMeansPositionIsTrue | src/engine/strategy.rs:1000-1004 | if besides no rebalance is pending, the position is all that the exchange matched and sold, order for order |
| UnfinishedDrain.DoneWithoutThePosition | src/main.rs:195-205 | for every trading configuration whose limits let a rebalance through, some run ends with the test succeeding, a rebalance pending, and shares sold that the position does not show |
| InventoryLimits.MakerCap | src/engine/quoter.rs:197-238 | in every run booked maker shares plus the open or pending maker order stay within the cap |
| InventoryLimits.ImbalanceBound | src/engine/quoter.rs:193-196 | in every run a side's lead plus everything outstanding on it stays below the unpaired limit plus one order plus one rebalance |
| InventoryLimits.RebalanceWithinLimit | src/executor/live.rs:239-302 | no rebalance answer exceeds the largest rebalance |
| ExchangeLimits.MatchedCap | src/engine/quoter.rs:197-238 | with reliable cancels, what the exchange matched, what live orders can still match and a post it has not seen stay within the cap in every run |
| ExchangeLimits.MatchedImbalance | src/engine/quoter.rs:193-196 | with reliable cancels the imbalance bound holds between matched shares of the two sides |
| PairCost.GuardedHistoryKeepsPairsCheap | src/engine/position.rs:103-120 | any sequence of fills, each passing its guard as it lands, keeps pairs below a dollar and locks a profit |
| PairCost.PairsStayBelowADollar | src/engine/quoter.rs:206-217 | in every concurrent run with compatible open orders on a whole-cent market, pairs cost less than a dollar |
| PairCost.StepFillsOpenPrices | src/engine/strategy.rs:507-687 | every step but a tick opens no price and fills nothing, or one order at a price that was open |
| RebalanceGuard.GuardKeepsPairsCheapExactlyBelowADollar | src/engine/strategy.rs:919-957 | in all states every wanted rebalance, however much of it fills, keeps pairs below a dollar if and only if the configured limit is below a dollar |
| DearPairs.RebalanceCanCostADollar | src/engine/strategy.rs:919-957 | for every trading configuration, every cent from fifty on that its rebalance limit admits next to fifty cents, and imbalance limits one order reaches, some run from the start ends with a pair at fifty cents plus that |
| DearPairs.ShippedConfigurationCostsADollar | config.toml:73-100 | with the shipped quoting and risk values some run from the start ends with a pair that costs 1.01 |
| DearPairs.OrdersOpenTogetherCanCostADollar | src/engine/quoter.rs:206-217 | for every trading configuration, whatever the rebalance limit and the requote threshold, some run from the start with posts on both sides under way together ends with a pair of a dollar or more |
| OpenRoom.StepShrinksReach | src/engine/strategy.rs:507-687 | without a rebalance under way no step but a tick raises what a side holds plus what can still fill on it |
| FillingUp.PlanIsCarriedOut | src/engine/strategy.rs:507-687 | from every state that keeps the invariant without a rebalance under way, some continuation without ticks fills a chosen set of sides with everything that can fill there, and the others only with what is already on its way |
| PeakCost.PeaksAreTheHighestPairCost | src/engine/quoter.rs:206-217 | in every reachable state without a rebalance under way, no continuation up to the next tick takes the pair cost above the sum of the two peaks, and some continuation reaches it unless a fill that lowers an average is already on its way |
| FlatBooks.FillsStayCheapExactlyForFillablePrices | src/engine/quoter.rs:206-217 | in every reachable state without fills, all continuations up to the next tick keep pairs below a dollar if and only if the prices that can fill on the two sides add up to less than a dollar |
| FineTicks.OrdersArePlacedAffordablyExactlyOnWholeCents | src/executor/live.rs:155-156 | of all ticks up to a cent, exactly the whole cent makes the executor place every posted order below a dollar a pair |
| TickContract.TickSendsOnSide | src/engine/strategy.rs:691-961 | every branch of the tick sends a side nothing, one cancel of its resting order, or one fully guarded post, and marks it accordingly |
| QuoteContract.AtMostOneCommandEach | src/engine/strategy.rs:805-961 | each side's maker gets at most one command a tick, so never a post and a cancel, and the taker at most one |
| QuoteContract.PostContract | src/engine/strategy.rs:820-902 | every post comes from an idle side, on the tick grid, inside the zone, below any known ask, between minimum and rung, within the cap and worth a dollar |
| QuoteContract.CancelContract | src/engine/quoter.rs:422-434 | every cancel is for the resting order, and only when none is under way |
| QuoteContract.RebalanceContract | src/engine/strategy.rs:904-957 | a rebalance comes only when none is pending, at the best ask, within the pair cost, and for the strictly lagging side exactly when the position is not level |
| QuoteContract.PostAndRebalance | src/engine/strategy.rs:862-957 | a post and a rebalance of one tick share a side exactly when the position is level and the side is YES, which needs a threshold of at most zero |
| QuoteContract.RebalancesStayOnTheLaggingSideExactlyForPositiveThresholds | src/engine/strategy.rs:904-916 | all rebalances go to strictly lagging sides if and only if the threshold is positive |
| QuoteContract.RejectedPostWaitsForANewBook | src/engine/strategy.rs:619-636 | in every run after the engine has heard of a rejection, until a new book of the side comes in, no tick posts on that side |
| QuoteContract.FloorNeverPosts | src/engine/fair_value.rs:487-493 | with a zone of at most 98 cents and ticks of at most one, no posted price was lifted by the one-cent floor |
| QuoteContract.SameTickQuotesLeaveTheEdge | src/engine/strategy.rs:820-836 | prices posted on both sides in one tick sum to at most one minus twice the edge plus a tick |
| QuoteContract.ExecutorPostsTheQuotedPrice | src/executor/live.rs:155-156 | on whole-cent ticks the executor posts the price that was quoted |
| FairValue.FairValueEstimator.TrySetStrike | src/engine/fair_value.rs:307-320 | collects prices and takes the middle of the sorted buffer once there are enough |
| FairValue.FairValueEstimator.Recompute | src/engine/fair_value.rs:374-475 | fair values stay in [0.02, 0.98] and add up to one, momentum stays clamped, and an estimator that is not warm changes nothing |
| FairValue.MedianIsInTheMiddle | src/engine/fair_value.rs:312-316 | at most half of the prices lie below the strike and more than half at or below it |
| FairValue.MedianIgnoresOrder | src/engine/fair_value.rs:312-316 | the strike does not depend on the order of the prices |
| FairValue.StrikeIsTheMedianForever | src/engine/fair_value.rs:307-320 | a positive median of the first prices becomes the strike and never changes |
| FairValue.ReportedStrikeIsSetExactly | src/engine/fair_value.rs:307-320 | the first report of a set strike is right if and only if the median is positive |
| Ema.CvdLevelTracker.Update | src/engine/buildup/metrics.rs:424-435 | one trade moves the level as specified |
| Ema.CvdAccelTracker.Update | src/engine/buildup/metrics.rs:93-108 | one trade moves both averages and their difference as specified |
| Ema.ObiVelocityTracker.Update | src/engine/buildup/metrics.rs:166-176 | one snapshot moves the averaged change as specified |
| Ema.NormalizeIsUnit | src/engine/buildup/metrics.rs:17-26 | normalized values lie in [0, 1], vanish exactly up to the threshold and reach one exactly from the saturation point on |
| Ema.TrackersKeepTheScoreUnit | src/engine/strategy.rs:1273-1295 | any signals the trackers produce give the guard a score in [0, 1] |
| Ema.LevelStaysWithin | src/engine/buildup/metrics.rs:424-435 | a level stays between the smallest and largest value fed, whatever the timestamps |
| Ema.AccelStaysWithinSpread | src/engine/buildup/metrics.rs:93-108 | an acceleration never exceeds the spread of the values |
| Ema.VelocityStaysWithinSpread | src/engine/buildup/metrics.rs:166-176 | neither does a velocity |
| Ema.ArrivalRateDoesNotMatter | src/engine/buildup/metrics.rs:32-34 | however often a value arrives up to an instant, the level there is the same |
| Ema.VelocityIsRateIndependentExactly | src/engine/buildup/metrics.rs:166-176 | for velocities that holds if and only if the value did not change or nothing decayed |
| Volatility.RealizedVolTracker.Update | src/engine/buildup/metrics.rs:347-365 | a price updates ring, head, count and sum of squares in place as specified |
| Volatility.RealizedVolTracker.RealizedVol | src/engine/buildup/metrics.rs:368-376 | returns the default before the warm-up and the volatility after it |
| Volatility.RingIsTheSlidingWindow | src/engine/buildup/metrics.rs:347-365 | after any prices the ring holds exactly the last log-returns, each in its slot, and their sum of squares |
| Volatility.VolatilityIsRootMeanSquare | src/engine/buildup/metrics.rs:368-376 | once warm, the volatility squared times the window length is the sum of squares of the window |
| Volatility.WarmFlagAgreesExactly | src/engine/buildup/metrics.rs:368-394 | the warm flag agrees with the volatility through every history if and only if the warm-up fits the ring |
| Rotation.SelectMarket | src/gateway/polymarket/rotation.rs:503-573 | the nested loops return the specified candidate |
| Rotation.SelectionIsEarliest | src/gateway/polymarket/rotation.rs:503-601 | the result is the earliest market offered strictly after the cutoff, first listed among equals, and missing exactly when none is offered |
| Rotation.RotationManager.Expire | src/gateway/polymarket/rotation.rs:82-116 | the expiry timer switches to the pre-warmed market or to none |
| Rotation.RotationManager.PollGammaAndEmit | src/gateway/polymarket/rotation.rs:281-344 | a poll adopts the market found and announces it if it is new and has time left |
| Rotation.RotationManager.Housekeep | src/gateway/polymarket/rotation.rs:119-219 | one housekeeping pass pre-warms, polls and arms the timer as specified |
| Rotation.RotationSafety | src/gateway/polymarket/rotation.rs:62-222 | in every timely run announced markets end strictly later and later, and a pre-warmed market ends strictly after the current one |
| Rotation.EngineFollowsTheCurrentMarket | src/gateway/polymarket/rotation.rs:62-222 | while the current market has time left, it is the one announced last |
| Calendar.LoopEpoch | examples/smoke_test_clob.rs:275-289 | the year and month loops count the seconds since 1970 |
| Calendar.ClosedFormIsLoopFormExactlyFrom1970 | src/gateway/polymarket/rotation.rs:621-644 | for every valid date-time with a four-digit year the closed form equals the loop form in milliseconds if and only if the year is at least 1970 |
| Calendar.ClosedFormOrdersDateTimes | src/gateway/polymarket/rotation.rs:621-644 | timestamps are ordered exactly as their date-times, field by field |
| Calendar.ParseFormatRoundTrip | src/gateway/polymarket/rotation.rs:605-645 | a formatted date-time parses back to its timestamp, whatever zone text follows |
| Calendar.ParsedInstantIsRightExactlyForZeroOffsets | src/gateway/polymarket/rotation.rs:605-615 | a date-time followed by a zone text is read as the instant that text means if and only if the offset it names is zero |
| Calendar.ParsedInstantIsOffByTheOffset | src/gateway/polymarket/rotation.rs:605-615 | for every offset the instant read is off by exactly that offset |
| Calendar.ShortTextsAreRefused | src/gateway/polymarket/rotation.rs:617-619 | anything shorter than a date-time is an error |
| Sbe.ParsePriceLevels | src/gateway/binance/ws.rs:389-411 | the loop decodes one group, stops at the first failure, and leaves the offset behind the group |
| Sbe.ParseDepth | src/gateway/binance/ws.rs:356-383 | a body decodes to a snapshot, an error or a fault as specified, without reading out of bounds |
| Sbe.ParseTrades | src/gateway/binance/ws.rs:472-536 | the same for a batch of trades |
| Sbe.ReadsWhatIsThere | src/gateway/binance/ws.rs:325-332 | reading the eight little-endian bytes of a signed word gives the word |
| Sbe.ReadsU16 | src/gateway/binance/ws.rs:336-343 | the same for two bytes |
| SbeDecimal.ConversionIsExactExactly | src/gateway/binance/ws.rs:314-321 | mantissa and exponent convert to the number meant if and only if the scale is at most 28 and the power and product fit |
| Sbe.GroupDecodes | src/gateway/binance/ws.rs:389-411 | an encoded group decodes to its levels and the offset ends right behind it |
| Sbe.DepthRoundTrip | src/gateway/binance/ws.rs:356-411 | an encoded snapshot decodes to exactly its levels, for any entry lengths from sixteen on, any padding and any trailer |
| Sbe.OrdinaryLevels | src/gateway/binance/ws.rs:314-321 | with ordinary exponents every level is converted to exactly what was encoded |
| Sbe.DepthNeverFaultsExactly | src/gateway/binance/ws.rs:356-411 | no byte string with the given exponents makes the snapshot decoder panic if and only if both exponents lie in -28 to 9 or are at least 64 |
| Sbe.TradesRoundTrip | src/gateway/binance/ws.rs:472-536 | an encoded trade batch decodes to its trades in order, each with its converted price and quantity and its flag, for any entry lengths from twenty-six on and any trailer |
| Sbe.OrdinaryTrades | src/gateway/binance/ws.rs:472-536 | with ordinary exponents the decoded batch is exactly the prices, quantities, sides and time that were encoded |
| Sbe.TradesNeverFaultExactly | src/gateway/binance/ws.rs:472-536 | no byte string with the given exponents makes the trade decoder panic if and only if both exponents are safe |

## Left out

- Runs across a market rotation with operations under way, feedback lost to a disconnected channel, and orders that a
  failed cancel leaves alive for good: outside the hypotheses. Orders that stay alive inside an epoch after a failed
  cancel are covered by every theorem except those of `Drain`.
- Orders that the exchange accepts although the post was reported to have failed: the engine never learns of them, and
  the exchange's accounts in the model do not contain them.
- Token ids, fee rates, tick-size changes, order signing, the network, wallet redemption and storage: only their
  effect on the messages is modelled.
- Cancelling everything on the exchange at a rotation: the executor's step only sets whether its caches are warm.
- The drain flag and the process exit itself, diagnostics, status texts and reports, except the worst-case figure of the market report.
- Floating-point and 28-digit decimal rounding; the numerical accuracy of the normal distribution and the logarithm.
- The basis, spot, liquidation and book-imbalance-level trackers: they have the shape of the trackers that are modelled.
- The best bid and ask message of the decoder, and the staleness filter: they would only add easy members. JSON fields
  of the market listing arrive as parsed values.
- Text that is not plain one-byte characters: slicing it may panic in the parser.
- Wrap-around of 32-bit sample and batch counters.
- FokSize.ClobSafeFokSize: negative prices are not modelled, because asks are never negative; prices are whole multiples of
  `1 / scale`.
- Position.AvgStaysBelow: rounding of the average price is not modelled, because `Decimal` is an exact real here.
- InventoryLimits.ImbalanceBound: asks on a grid finer than a cent, or one that does not divide it, get a rebalance
  allowance of 101 shares instead of one, because the fill-or-kill search may go that far up.
- Rotation.RotationSafety: only for clocks that do not run backwards and timers that do not fire early; order books
  fetched ahead of a switch are not modelled.
- FlatBooks.FillsStayCheapExactlyForFillablePrices: for positive rebalance thresholds only; otherwise a rebalance may be
  under way on an empty position, and a side then has two prices.
- PeakCost.PeaksAreTheHighestPairCost: not for states with a rebalance under way. That the sum is reached is not claimed
  where an answer already under way will book a fill that lowers its side's average: answers are heard in order, so
  it may have to be booked before the other side can fill.
- FineTicks.OrdersArePlacedAffordablyExactlyOnWholeCents: ticks above a cent are outside the statement.
- FairValue.FairValueEstimator.Recompute: takes the base probability, the signed signals, the volatilities and the
  number of stale feeds as inputs; how they are computed is modelled separately or not at all.
