# nTrade kernel: verified models

A Dafny 4.11 model of the trading kernel of nTrade. The repository promises "zero parity":
live trading, replay, backtest, chart and paper are meant to be one thing seen five ways, and
a crash is meant to lose nothing. The project models the parts those promises rest on and
proves what they amount to. `dafny verify dfyconfig.toml` checks everything.

| file | part of the kernel |
|---|---|
| `Orders.dfy`, `CrashRecovery.dfy`, `BrokerExecution.dfy` | order lifecycle, interleaved sessions, crash and restart |
| `EventStore.dfy` | open-order deltas, recovery order |
| `Guard.dfy`, `CircuitBreaker.dfy` | idempotency guard, breaker with kill latch |
| `RateGate.dfy` | sliding windows, pruning, cooldown, waiting |
| `CandleEngine.dfy`, `TickSimulator.dfy`, `Feeds.dfy`, `LivePump.dfy` | ticks to candles, bars to ticks, the round trip, the API pump |
| `HalfTrend.dfy`, `Strategies.dfy` | the indicator, the strategy, the chart overlay |
| `Portfolio.dfy` | positions, cash, the paper broker's book |
| `EventBus.dfy` | re-entrant dispatch, causal stamps, the one-shot halt |
| `OptionChain.dfy`, `VolumeProfile.dfy` | max pain, value area |

Objects of the source that update their fields are classes here; each method is tied to a
function of the old state, and the lemmas are about those functions, over whole runs. Each
lock-guarded section is one step over a monotone clock. Random draws are arbitrary values in
the drawn range, broker answers arbitrary inputs, NaN is `None`, timestamps are microseconds
since the epoch, and prices are exact reals.

## Results worth knowing

- Crash recovery as coded is not exact. `poll` publishes the status update, which carries the
  cumulative quantity, before the fill; the fold first raises its count to that quantity and
  then adds the fill on top. On every log the recovered count is the fills since acceptance
  plus the most by which an update ran ahead of the fills logged before it
  (`EventStore.DeltaIsFillsPlusOverhang`). In every interleaved session the excess is the
  largest quantity that came in with a status change, so recovery is exact if and only if no
  status-changing report brought new quantity (`CrashRecovery.RecoveryIsExactIff`). The
  ordinary first partial fill of f is recovered as 2f, and the order is forgotten when 2f
  reaches its quantity (`CrashRecovery.FirstPartialFillCountsTwice`). The docstring of
  `open_order_deltas` says that it mirrors the tracker; the model follows the code.
- What that costs depends on whether the order is restored or dropped. A restored order never
  emits more than the broker reported, through any number of crashes
  (`CrashRecovery.CrashesNeverOverfill`), and what it never emits is exactly the recovered excess
  or, if less, what was left to fill (`CrashRecovery.CrashAndRestart`). A dropped order that is still open at the broker is adopted
  by the orphan reconciliation with a count of 0, and everything filled before the crash is
  emitted a second time (`CrashRecovery.DroppedOrderFillsTwice`). A restart is safe if and only
  if, at the crash, the recovered count is below the quantity or nothing had been filled
  (`CrashRecovery.RestartIsSafeIff`); adopting any order with a past, after an eviction as well,
  is safe if and only if nothing of it had been filled (`CrashRecovery.AdoptionIsSafeIff`).
- The kill latch keeps the breaker from closing but does not block the status calls for good.
  While the circuit stays killed, a visit calls the broker if and only if some call since the
  last opening (the kill itself, or a failed call) did not fail, or the cooldown since that
  opening is over and the order is not evicted (`CircuitBreaker.KilledCircuitCallsIff`); the
  comment on the kill switch says that it blocks all new polls.
- Strategy and chart overlay agree on every bar except possibly bar `atr_period - 1`, which
  the strategy may trade and the overlay never draws, although the strategy's comment calls
  the gates the same. They agree on all bars of all frames if and only if `atr_period` is at most
  the larger of the amplitude and 2 (`Strategies.GatesAgreeIff`, `Strategies.WhipsawSplitsGates`).
- Pump and kernel buckets agree on a trading day exactly when the session opens on a span
  boundary: true at 1m, 5m and 15m for NSE and MCX, false at 1h
  (`LivePump.BucketsAgreeIffAligned`, `LivePump.NoHourlyParity`).
- The simulator keeps every tick of every draw inside the bar if and only if open and close lie
  in it and both extremes round inward, as they do on the paise grid
  (`TickSimulator.TicksStayInsideIff`, for 53 seconds and more; the "if" half holds for every
  length, `TickSimulator.Synthesize`). A bar from 100.0 to 100.006 has a tick at 100.01, without
  any noise (`TickSimulator.OffGridTickLeavesBar`).

## Model

| member | source | states |
|---|---|---|
| `Orders.VisitConserves` | ntrade/execution/broker_executor.py:193-296 | one poll visit emits exactly the growth of the tracked filled count, whichever of the circuit, throttle, error and report paths it takes |
| `Orders.ReportSums` | ntrade/execution/broker_executor.py:254-296 | a report yields fills for the unseen quantity only and refuses exactly the unfilled rest of a cancelled or rejected order |
| `Orders.FillConservation` | ntrade/execution/broker_executor.py:176-296 | over any tenure emitted fills sum to the growth of the count, never exceed the largest report heard, and equal it when every report is priced |
| `Orders.GoneStaysGone` | ntrade/execution/broker_executor.py:176-196 | an order that left the tracker is never changed again and emits nothing |
| `Orders.CancelledOrderBalances` | ntrade/execution/broker_executor.py:277-296 | a cancelled or rejected order that was not over-filled ends with fills plus refused quantity equal to the ordered quantity, whatever polls follow |
| `Orders.FillsCarryTheOrder` | ntrade/execution/broker_executor.py:458-500 | every fill of a tenure has the order's symbol and side, is the unseen part of a report heard at one of its visits, and is priced at the report's average, or at the order's own price when there is none |
| `Orders.TenureMovesPosition` | ntrade/execution/broker_executor.py:458-500 | the fills of a tenure move the net position of the order's symbol by the growth of its count, up for a buy and down for a sell |
| `Orders.TimeoutsAreOverdueVisits` | ntrade/execution/broker_executor.py:254-265 | a timeout is announced at exactly the visits that hear the order still pending more than the timeout after its placement |
| `Orders.SilenceEvictsAtLimit` | ntrade/execution/broker_executor.py:201-253 | through visits without an answer an order stays tracked, with only its staleness changed, exactly until the misses reach the limit |
| `Orders.AnswerClearsStaleness` | ntrade/execution/broker_executor.py:229-296 | an answer clears the staleness and takes over the status, and only a terminal one ends the tenure |
| `EventStore.DeltaIsFillsPlusOverhang` | ntrade/storage/event_store.py:174-197 | on every log, the recovered count is the fills since acceptance plus the overhang of the updates |
| `EventStore.DeltaIsExactIffBacked` | ntrade/storage/event_store.py:175-191 | the fold is exact if and only if no update since acceptance reports more than the fills logged before it, and never too low |
| `EventStore.RecoveryIsSortedPermutation` | ntrade/storage/event_store.py:199-226 | recovery replays each market and fill event exactly once, by time, market data before fills of the same time, append order within a kind |
| `EventStore.FillOrderKeptIffTimesSorted` | ntrade/storage/event_store.py:199-226 | the fills are replayed in logged order if and only if their times never decrease |
| `EventStore.RecoveryRebuildsPortfolio` | ntrade/storage/event_store.py:199-226 | with fill times never decreasing, replaying the recovered fills gives the same positions and cash |
| `EventStore.Store.OpenDeltas` | ntrade/storage/event_store.py:152-197 | the dictionary walk computes the open-order deltas of the log |
| `CrashRecovery.OrdersDoNotInterfere` | ntrade/execution/broker_executor.py:188-296 | in every interleaving an order's record and events are those of its own visits alone |
| `CrashRecovery.RecoveredCount` | ntrade/storage/event_store.py:175-197 | for a tracked order the recovered count is the tracker's count plus the largest quantity carried by a status change; it survives the crash exactly when that is below its quantity |
| `CrashRecovery.RecoveryIsExactIff` | ntrade/execution/broker_executor.py:266-276 | recovery equals the tracker's count if and only if no status-changing report brought new quantity |
| `CrashRecovery.RestoreKeepsOrder` | ntrade/execution/broker_executor.py:403-427 | an order comes back exactly when its symbol is known and its recovered count is below its quantity, and then with its ticket, its acceptance time, its status if placed as pending, and its count plus the jump |
| `CrashRecovery.OrderMovesItsPosition` | ntrade/execution/broker_executor.py:388-500 | through any polls, crashes and restores without adoption the logged fills of an order move the position of its own symbol in its own direction by the quantity filled |
| `CrashRecovery.FilledPlacement` | ntrade/execution/broker_executor.py:145-150 | a placement filled at once is never tracked and logs one fill of its symbol, side, quantity and price |
| `CrashRecovery.RunKeepsIdentity` | ntrade/storage/event_store.py:174-191 | log and tracker keep agreeing on ticket, acceptance time and status of an order in every run |
| `CrashRecovery.FinishedOrdersAreNotRecovered` | ntrade/storage/event_store.py:185-197 | once a poll has heard a terminal report the order is not among the recovered ones, whatever follows |
| `CrashRecovery.FirstPartialFillCountsTwice` | ntrade/execution/broker_executor.py:266-276 | a first partial fill of f is recovered as 2f, and the order is dropped exactly when 2f reaches its quantity |
| `CrashRecovery.RestartNeverOverfills` | ntrade/execution/broker_executor.py:388-432 | for a restored record, fills before and after never exceed the broker's report; the shortfall is exactly the recovered excess or what was left to fill |
| `CrashRecovery.CrashAndRestart` | ntrade/execution/broker_executor.py:322-432 | a whole crash over any polls before and after: restored, fills stay within the reports and exactly the recovered excess is missing; dropped and adopted, everything filled before is emitted again |
| `CrashRecovery.RestartIsSafeIff` | ntrade/runner/live_runner.py:100-104 | with orphan adoption after each poll, no later reports can over-fill the order if and only if at the crash its recovered count is below its quantity or nothing was filled |
| `CrashRecovery.AdoptionRepeatsFills` | ntrade/execution/broker_executor.py:367-377 | an adopted record starts at 0: the fills logged before are emitted again, in full when every report is priced |
| `CrashRecovery.AdoptionIsSafeIff` | ntrade/execution/broker_executor.py:322-385 | adopting an order with a past never over-fills if and only if nothing of it had been filled |
| `CrashRecovery.DroppedOrderFillsTwice` | ntrade/execution/broker_executor.py:373-377 | a first partial fill of at least half the quantity, a crash, adoption and the same report: 2f filled against a report of f |
| `CrashRecovery.CrashesNeverOverfill` | ntrade/execution/broker_executor.py:388-432 | through any number of crashes and restores the fills never exceed the largest report heard, a further crash recovers the growth of the overhang since the last as excess, and the order survives exactly below its quantity |
| `CrashRecovery.CountIsLogged` | ntrade/execution/broker_executor.py:458-500 | while tracked, the filled count is the sum of the fills logged since acceptance |
| `BrokerExecution.BrokerExecution.Submit` | ntrade/execution/broker_executor.py:94-155 | completed or reserved keys never reach the venue, a failed placement leaves no trace, an accepted one is recorded, published and tracked or filled |
| `BrokerExecution.PlacingBooks` | ntrade/execution/broker_executor.py:145-154 | a completed placement is filled at once as far as it is priced and never tracked; any other is tracked with nothing filled |
| `BrokerExecution.BrokerExecution.NextBrkId` | ntrade/execution/broker_executor.py:157-164 | the fallback id is above every number used before and belongs to no tracked order; the loop ends |
| `BrokerExecution.BrokerExecution.VisitOrder` | ntrade/execution/broker_executor.py:193-296 | one order's turn moves tracker, log and breaker exactly by the visit step; the log grows only by an answered call the breaker admits, and throttling is no failure |
| `BrokerExecution.BrokerExecution.Reported` | ntrade/execution/broker_executor.py:254-296 | the report path publishes timeout, update, fill and refusal in that order and keeps or drops the record |
| `BrokerExecution.BrokerExecution.EmitFill` | ntrade/execution/broker_executor.py:458-500 | emits the positive, priced increment over the tracked count, as the fill `Orders.FillsCarryTheOrder` describes, and raises the count by it |
| `BrokerExecution.BrokerExecution.Poll` | ntrade/execution/broker_executor.py:176-296 | poll is the run of its visits, and returns the fills and refusals it published |
| `BrokerExecution.AnnouncementsCarryAll` | ntrade/execution/broker_executor.py:276-296 | what poll returns is exactly the fills and refusals it published, with all their quantities |
| `BrokerExecution.BrokerExecution.RestoreOpen` | ntrade/execution/broker_executor.py:388-432 | untracked deltas of known symbols become records, tracked ones stay, and the sequence passes every recovered number; a fresh tracker fed the open deltas of the log makes the crash step, whose records `CrashRecovery.RestoreKeepsOrder` describes |
| `Guard.RunKeepsInv` | ntrade/execution/_guard.py:57-84 | in every interleaving reserved and completed keys are disjoint and the order list is a duplicate-free listing of the completed keys within the cap, the latest accepted ones |
| `Guard.AtMostOncePlacement` | ntrade/execution/broker_executor.py:109-144 | after an accepted placement a key is let through again only after `max_entries` acceptances of other keys |
| `Guard.OneInFlight` | ntrade/execution/_guard.py:57-65 | while a placement is under way every other submission of its key is told that it is in flight |
| `Guard.RetryAfterFailure` | ntrade/execution/_guard.py:76-79 | after a failed placement the next submission of its key is let through |
| `Guard.RepeatGetsTheResult` | ntrade/execution/_guard.py:57-74 | until `max_entries` other acceptances have gone by, a repeated submission is answered with the order id of the first |
| `Guard.MemoryIdempotencyGuard.CheckAndReserve` | ntrade/execution/_guard.py:57-65 | duplicate, in-flight or fresh, and only fresh reserves |
| `Guard.MemoryIdempotencyGuard.RecordResult` | ntrade/execution/_guard.py:67-74 | first result wins, the reservation goes, the oldest keys are evicted |
| `Guard.MemoryIdempotencyGuard.Release` | ntrade/execution/_guard.py:76-79 | drops the reservation and nothing else |
| `Guard.MemoryIdempotencyGuard.EvictIfOverCap` | ntrade/execution/_guard.py:81-84 | the loop leaves the latest keys up to the cap and forgets exactly the others |
| `CircuitBreaker.RunKeepsInv` | ntrade/execution/_guard.py:125-169 | a closed circuit is below the failure threshold, any other at or above it, and a killed one is never closed, for every threshold |
| `CircuitBreaker.NoCallBeforeCooldown` | ntrade/execution/broker_executor.py:199-226 | once the circuit is open, poll makes no status call before the cooldown has elapsed |
| `CircuitBreaker.DeadBrokerIsProbedSparingly` | ntrade/execution/_guard.py:133-155 | after a failed probe the next call, if any, is a full cooldown later |
| `CircuitBreaker.OpensAtThreshold` | ntrade/execution/_guard.py:150-155 | consecutive failures open the circuit at the threshold, or at the first for a threshold below 1, and not before |
| `CircuitBreaker.ClosedIffShortStreak` | ntrade/execution/_guard.py:142-155 | without kills the circuit is closed exactly while fewer than the threshold of calls have failed since the last answer, throttled ones not counted |
| `CircuitBreaker.KilledIffLatched` | ntrade/execution/_guard.py:157-169 | the latch is set exactly when a kill was not followed by a release |
| `CircuitBreaker.AnswerClosesIffNotKilled` | ntrade/execution/_guard.py:142-148 | an answered call closes the circuit and forgets the failures if and only if no kill is in force |
| `CircuitBreaker.KilledCircuitCallsIff` | ntrade/execution/_guard.py:133-164 | while killed, a visit makes a status call if and only if some call since the last opening did not fail, or the cooldown since that opening is over and the order is not evicted |
| `CircuitBreaker.KilledCircuitServes` | ntrade/execution/broker_executor.py:199-226 | from an answered or throttled probe on, a killed circuit serves every visit until a call fails or it is killed again |
| `CircuitBreaker.KillBlocksForCooldown` | ntrade/execution/broker_executor.py:303-319 | as long as no call has been made since the kill, a visit calls the broker if and only if the cooldown is over and the order is not evicted |
| `CircuitBreaker.CircuitBreaker.Failed` | ntrade/execution/_guard.py:150-155 | counts the failure and opens at the threshold, keeping the invariant |
| `CircuitBreaker.CircuitBreaker.Succeeded` | ntrade/execution/_guard.py:142-148 | closes and resets unless killed |
| `CircuitBreaker.CircuitBreaker.Trip` | ntrade/execution/_guard.py:157-164 | opens, latches, and sets the failures to the threshold |
| `RateGate.AttemptKeepsInv` | ntrade/execution/rate_limit.py:121-128 | every retry keeps each deque a suffix of the grants that lacks only expired ones, within its limit, and the grants spaced |
| `RateGate.SlidingWindowSafety` | ntrade/execution/rate_limit.py:114-139 | in every interleaving, for every class, window and instant t, at most `limit` grants fall in (t - span, t] |
| `RateGate.DefaultOrderLimits` | ntrade/execution/rate_limit.py:42-47 | under the default windows never more than 10 orders in a second, 250 in a minute, 1000 in an hour, 7000 in a day |
| `RateGate.GrantsExactlyWhenCapacity` | ntrade/execution/rate_limit.py:180-193 | a retry grants exactly when the cooldown is over and no window of the complete grant log is full |
| `RateGate.PenaltyDelaysGrants` | ntrade/execution/rate_limit.py:131-139 | in every run, each grant made after a penalty of its class is stamped at or after the end of that penalty |
| `RateGate.RefusedIff` | ntrade/execution/rate_limit.py:121-139 | a retry is refused if and only if a window of its class is full or a penalty of its own class is not over; other classes never delay it |
| `RateGate.WaitIsNotTooLong` | ntrade/execution/rate_limit.py:180-193 | at no instant before the computed wait is over would there be capacity |
| `RateGate.RoundOfLoneAcquire` | ntrade/execution/rate_limit.py:121-129 | a lone acquire that has slept twice grants; each earlier sleep clears the cooldown, then the windows |
| `RateGate.StatusReportsTrueLoad` | ntrade/execution/rate_limit.py:157-177 | the unpruned `used` telemetry never exceeds the limit, whenever its clock was read, and is the true load of each window when read after the last step |
| `RateGate.BrokerRateGate.ComputeWait` | ntrade/execution/rate_limit.py:180-193 | prunes every deque and returns the cooldown or the longest wait of a full window |
| `RateGate.BrokerRateGate.TryAcquire` | ntrade/execution/rate_limit.py:122-128 | one locked retry is one acquire step of the gate, with two clock reads |
| `RateGate.BrokerRateGate.Acquire` | ntrade/execution/rate_limit.py:114-129 | with no other traffic on the class it returns after at most two sleeps with one new grant, other classes untouched |
| `RateGate.BrokerRateGate.Penalize` | ntrade/execution/rate_limit.py:131-139 | one penalty step of its class, as `RateGate.PenaltyDelaysGrants` and `RateGate.RefusedIff` describe it |
| `CandleEngine.FoldIsGroupBy` | ntrade/engines/candle_engine.py:91-110 | closed candles and the open one are, in strictly increasing buckets, first/max/min/last/sum of the on-time ticks per bucket; on-time plus late is all |
| `CandleEngine.LateIsOvertaken` | ntrade/engines/candle_engine.py:94-99 | a tick is dropped exactly when an earlier tick lies in a later bucket |
| `CandleEngine.SummaryIsUnique` | ntrade/engines/candle_engine.py:100-110 | a group of ticks determines its candle |
| `CandleEngine.FlushStartsAfresh` | ntrade/engines/candle_engine.py:133-138 | after a flush the fold depends on the later ticks only |
| `CandleEngine.BucketHoldsTick` | ntrade/engines/candle_engine.py:58-59 | buckets start at the multiples of the timeframe and hold their ticks |
| `CandleEngine.LastBarOfRunWins` | ntrade/engines/candle_engine.py:70-89 | fed bars alone, each run of bars of one bucket gives exactly one candle, that of its last bar |
| `CandleEngine.Close` | ntrade/engines/candle_engine.py:112-126 | the kept buffer stays the last `max_candles` of everything closed |
| `CandleEngine.CandleEngine.Ingest` | ntrade/engines/candle_engine.py:91-110 | one tick into one symbol's series, late ticks counted, other symbols untouched |
| `CandleEngine.CandleEngine.OnTick` | ntrade/engines/candle_engine.py:61-68 | skips the tick of a bar-seeded bucket in backtest mode only |
| `CandleEngine.CandleEngine.OnQuote` | ntrade/engines/candle_engine.py:70-89 | a bar replaces its bucket in backtest mode; quotes are ignored otherwise |
| `CandleEngine.CandleEngine.Flush` | ntrade/engines/candle_engine.py:133-138 | closes the open candle of the symbol |
| `CandleEngine.CandleEngine.FlushAll` | ntrade/engines/candle_engine.py:133-138 | flushing without a symbol closes every open candle |
| `TickSimulator.AcceptableDrawExists` | ntrade/sim/tick_simulator.py:62-68 | for every length and high index an acceptable low index exists, so the rejection loop can end |
| `TickSimulator.GapIsFive` | ntrade/sim/tick_simulator.py:63-64 | the minimum gap is between 1 and 5 seconds, and 5 exactly from 13 seconds on |
| `TickSimulator.DrawLow` | ntrade/sim/tick_simulator.py:65-68 | the rejection loop returns a drawn index at least the minimum gap away |
| `TickSimulator.Interp` | ntrade/sim/tick_simulator.py:30-37 | each price is that of the last segment covering its index, repeated indices included |
| `TickSimulator.PathOnSegment` | ntrade/sim/tick_simulator.py:30-37 | with anchors in index order the path runs straight from each anchor to the next |
| `TickSimulator.PathHitsAnchors` | ntrade/sim/tick_simulator.py:30-37 | it goes through every anchor whose index no later one repeats |
| `TickSimulator.LerpSteps` | ntrade/sim/tick_simulator.py:30-37 | between two anchors every second moves the price by the same step |
| `TickSimulator.DistributeVolume` | ntrade/sim/tick_simulator.py:40-51 | non-negative quantities that sum to the volume; every tick but the first and last gets its exact proportional share rounded down |
| `TickSimulator.RoundingStaysIffInward` | ntrade/sim/tick_simulator.py:75-80 | rounding keeps every price of a band inside it if and only if both ends round inward |
| `TickSimulator.TicksStayInsideIff` | ntrade/sim/tick_simulator.py:54-86 | every tick of every draw lies in the bar if and only if open and close do and both extremes round inward |
| `TickSimulator.ExtremesAreRounded` | ntrade/sim/tick_simulator.py:70-80 | some draw brings a tick to exactly the high, and some to exactly the low, before rounding |
| `TickSimulator.OffGridTickLeavesBar` | ntrade/sim/tick_simulator.py:70-80 | a bar from 100.0 to 100.006 with a tick at 100.01 |
| `TickSimulator.Synthesize` | ntrade/sim/tick_simulator.py:54-86 | for every draw: the price of every tick, pinned or path, noise, clamp and rounding; for well-formed bars one tick a second, open first, close last, every price in the bar, both extremes touched, quantities summing to the volume; the anchor gap kept |
| `Feeds.OneMinuteOneBucket` | ntrade/engines/candle_engine.py:48-59 | the seconds of a minute share a bucket in every timeframe of whole minutes |
| `Feeds.BarRoundTrip` | ntrade/sources/synthetic_feed.py:98-114 | folding any ticks the simulator can make of a bar and flushing closes exactly that bar |
| `Feeds.PlaySynthetic` | ntrade/sources/synthetic_feed.py:67-114 | the synthetic feed closes one candle per bar, equal to the bar |
| `Feeds.PlayTicks` | ntrade/sources/synthetic_feed.py:98-108 | publishing ticks is the fold over them, with the late ones counted |
| `Feeds.PlayBacktest` | ntrade/backtest/simulator.py:172-212 | the backtest closes one candle per bar, equal to the bar, its paired tick skipped |
| `Feeds.RoundTrip` | ntrade/sim/tick_simulator.py:40-86 | for every frame of minute bars and every draw, the two modes close the same candles |
| `LivePump.BucketsAgreeIffAligned` | api/live.py:273-277 | on a trading day session-anchored and epoch-anchored buckets agree if and only if the session opens on a span boundary |
| `LivePump.BucketParity` | api/live.py:273-277 | they agree at 1m, 5m and 15m on every day, for both exchanges |
| `LivePump.NoHourlyParity` | ntrade/domain/market_hours.py:14-17 | at 1h the first tick of every session lands in different buckets |
| `LivePump.SessionIsInterval` | ntrade/domain/market_hours.py:14-44 | the market is open exactly on weekdays, from the session start for 6 and a quarter hours, or 14 and a half at MCX |
| `LivePump.PumpMatchesKernel` | api/live.py:270-296 | for any ticks, pump and kernel build the same finished and unfinished candles from those that are priced and in session, negative quantities counting as none |
| `LivePump.PumpState.ApplyTick` | api/live.py:270-304 | one tick moves the bar by the pump's fold, rejects what is closed, unpriced or stale, and hands over the completed bar |
| `HalfTrend.RowsArePrefixStable` | ntrade/domain/analytics/halftrend.py:59-210 | every output row on a prefix of the frame is the row on the whole frame |
| `HalfTrend.SignalsDoNotRepaint` | ntrade/domain/analytics/halftrend.py:220-226 | signals on a prefix are the signals on the whole frame |
| `HalfTrend.RowsKeepInv` | ntrade/domain/analytics/halftrend.py:98-210 | `trend` and `nextTrend` are never both 1, the extremes are always defined, the line from bar 1 on |
| `HalfTrend.LineStep` | ntrade/domain/analytics/halftrend.py:156-218 | the line is continuous at a flip, never falls in an up run, never rises in a down run |
| `HalfTrend.LineIsMonotoneInRuns` | ntrade/domain/analytics/halftrend.py:156-218 | the same over whole runs |
| `HalfTrend.SignalIsWarmFlip` | ntrade/domain/analytics/halftrend.py:220-226 | a signal is a trend flip on a bar with a defined ATR, nothing else |
| `HalfTrend.SignalsAlternate` | ntrade/domain/analytics/halftrend.py:220-226 | between two signals of one side lies one of the other |
| `HalfTrend.HighestLowMeans` | ntrade/domain/analytics/halftrend.py:118-128 | the highest window low since a lies above x exactly when all lows of some full window since a do |
| `HalfTrend.LowestHighMeans` | ntrade/domain/analytics/halftrend.py:141-148 | the lowest window high since d lies below x exactly when all highs of some full window since d, or of the first bar from the start, do |
| `HalfTrend.TrendFollowsPhase` | ntrade/domain/analytics/halftrend.py:98-156 | the state loop computes phases defined from the bars alone: break-outs above the lowest window high and falls through the highest window low take turns |
| `HalfTrend.TurnsDownAtFirstFall` | ntrade/domain/analytics/halftrend.py:118-140 | after an arming at a, the trend first turns down at i if and only if i is the first later full-window bar with its mean high below the highest window low since a and its close below the previous low |
| `HalfTrend.ArmsAtFirstBreak` | ntrade/domain/analytics/halftrend.py:141-156 | from the start or after a turn down at d, the next trend is first armed, and a down trend turned up, at i if and only if i is the first later full-window bar with its mean low above the lowest window high since d and its close above the previous high |
| `HalfTrend.SignalsFollowPhase` | ntrade/domain/analytics/halftrend.py:220-226 | a sell is a warm fall out of an up phase, a buy a warm break-out of a down phase |
| `HalfTrend.LineFollowsPhase` | ntrade/domain/analytics/halftrend.py:156-218 | the line stays flat at a turn, is the first low before any break-out, and otherwise ratchets to the highest window low of an up phase or the lowest window high of a down phase |
| `HalfTrend.ChannelIsCentred` | ntrade/domain/analytics/halftrend.py:156-210 | the channel lies deviation times half the ATR to either side of the line, the arrows half an ATR off it |
| `HalfTrend.TrueRangeIsSpan` | ntrade/domain/analytics/indicators.py:35-40 | the true range is the width of the smallest band holding the bar and the previous close |
| `HalfTrend.AtrIsWeightedMean` | ntrade/domain/analytics/indicators.py:35-41 | on every warm bar the ATR recurrence is the mean of all true ranges so far, weighted by age with decay 1 - 1/period |
| `HalfTrend.WindowExtremes` | ntrade/domain/analytics/halftrend.py:64-71 | the rolling extremes are the attained extremes of the window |
| `HalfTrend.AtrColumn` | ntrade/domain/analytics/indicators.py:35-41 | the running numerator and denominator give the weighted mean of the true range, undefined before the period |
| `HalfTrend.HalfTrend` | ntrade/domain/analytics/halftrend.py:33-249 | columns over the whole frame and the state loop compute the rows and signals that `HalfTrend.TrendFollowsPhase`, `HalfTrend.SignalsFollowPhase` and `HalfTrend.LineFollowsPhase` describe from the bars |
| `Strategies.StrategyMatchesOverlay` | ntrade/engines/strategies.py:68-112 | off bar `atr_period - 1` strategy and overlay always agree; on it the overlay draws nothing, whatever the strategy emits |
| `Strategies.GatesAgreeIff` | ntrade/engines/strategies.py:68-156 | they agree on every bar of every frame if and only if `atr_period` is at most the larger of the amplitude and 2 |
| `Strategies.NoTurnBeforeWindow` | ntrade/domain/analytics/halftrend.py:98-210 | the trend cannot turn before the window is full, nor before bar 2 |
| `Strategies.WhipsawSplitsGates` | ntrade/engines/strategies.py:134-137 | for every longer `atr_period` a frame on whose last warm-up bar the strategy sells and the overlay draws nothing |
| `Strategies.GatesDiffer` | ntrade/engines/strategies.py:134-137 | three bars on which the strategy sells and the overlay draws nothing |
| `Strategies.BuildOverlay` | ntrade/engines/strategies.py:117-156 | the marker loop lists the signals from `atr_period` on |
| `Strategies.HalfTrendStrategy.OnCandleClosed` | ntrade/engines/strategies.py:87-112 | ignores other symbols and timeframes, else buffers the bar and emits its signal |
| `Strategies.HalfTrendStrategy.LatestSignal` | ntrade/engines/strategies.py:68-85 | the last bar's signal once `atr_period` bars are buffered |
| `Strategies.RunStrategy` | ntrade/engines/strategies.py:87-112 | fed bar by bar, the strategy emits what the overlay draws once over everything, except on bar `atr_period - 1` |
| `Portfolio.BookFollowsBasis` | ntrade/engines/portfolio_engine.py:20-46 | after any positive fills each position carries the quantity and cost of a ledger kept from the fills alone |
| `Portfolio.PositionIsSignedSum` | ntrade/engines/portfolio_engine.py:20-46 | a position exists exactly when its signed fills do not cancel, and is their sum |
| `Portfolio.LedgerIdentity` | ntrade/engines/portfolio_engine.py:20-57 | cash plus cost of open positions is initial cash plus realized profit minus charges |
| `Portfolio.PaperMirrorsPortfolio` | ntrade/brokers/paper.py:150-172 | over any positive fills the paper book holds the same quantity and average for every symbol |
| `Portfolio.PortfolioEngine.OnFilled` | ntrade/engines/portfolio_engine.py:20-68 | nets, re-averages, flattens or reverses the position, moves the cash, reports the remainder |
| `Portfolio.PaperFillsAtFirstPrice` | ntrade/brokers/paper.py:116-145 | a paper order fills within half a paisa of its limit, else its reference, else the live, else the seeded price, and not at all without one |
| `Portfolio.PaperBroker.PlaceOrder` | ntrade/brokers/paper.py:116-172 | picks the price by preference, raises without one, and books the position |
| `EventBus.StackRestoredHaltOnce` | ntrade/kernel/event_bus.py:63-101 | whatever raises, the stack is restored and at most one halt is published, exactly when the limit disarms |
| `EventBus.DispatchIsPreAndPostOrder` | ntrade/kernel/event_bus.py:54-101 | below the limit the history gains the pre-order and the base-class recorder the post-order of the stamped tree |
| `EventBus.HaltIsInsertedOnce` | ntrade/kernel/event_bus.py:79-101 | reaching the limit dispatches the halt once, in history and recorder alike right after the complete dispatch of the event whose own handlers raised the error that was due, and under the same publisher |
| `EventBus.OneCorrelation` | ntrade/kernel/event_bus.py:64-69 | every event of a dispatch carries the root's correlation id |
| `EventBus.CausedByPublisher` | ntrade/kernel/event_bus.py:64-69 | at every depth: the events published are exactly the history without the root; each keeps the ids it carries and otherwise has the id of its publisher, an earlier event, as cause and its correlation |
| `EventBus.StoreIsPermutation` | ntrade/kernel/session.py:73-79 | the recorder sees a permutation of the history |
| `EventBus.OneOrderPerRoot` | ntrade/execution/broker_executor.py:109-117 | of the intents of one root event, a second reaches the venue only after `max_entries` other acceptances |
| `EventBus.EventBus.PublishTree` | ntrade/kernel/event_bus.py:54-101 | publishing a tree of nested publishes is the dispatch, and the bounded history keeps its latest events |
| `OptionChain.LeastStrikeIsGlobal` | ntrade/domain/instruments/chain.py:142-154 | the least painful strike is no more painful than any real settlement price |
| `OptionChain.SomeStrikeIsNoWorse` | ntrade/domain/instruments/chain.py:142-154 | for every price some listed strike is no more painful |
| `OptionChain.LeastPainIffBalanced` | ntrade/domain/instruments/chain.py:142-154 | a price is one of least pain over all real prices if and only if the calls struck below it hold no more open interest than the puts from it on, and the puts struck above it no more than the calls up to it |
| `OptionChain.OneLotPays` | ntrade/domain/instruments/chain.py:147-151 | one lot pays what the price is past its strike: above it for a call, below it for a put |
| `OptionChain.LotsAddUp` | ntrade/domain/instruments/chain.py:147-151 | a contract pains as much as its lots split over two entries |
| `OptionChain.NoInterestNoPain` | ntrade/domain/instruments/chain.py:147-151 | a contract without positive open interest changes no pain |
| `OptionChain.Strikes` | ntrade/domain/instruments/chain.py:50-53 | the strike index lists each strike once, ascending |
| `OptionChain.MaxPain` | ntrade/domain/instruments/chain.py:142-154 | 0 for an empty chain, else the lowest listed strike of least pain, a minimum over every real price at which the open interest balances |
| `VolumeProfile.ClampNeverActs` | ntrade/domain/analytics/volume_profile.py:79-99 | for bars with low <= high the bucket of the midpoint lies in range |
| `VolumeProfile.BucketIsNearest` | ntrade/domain/analytics/volume_profile.py:76-81 | a price lies within half a width of the centre of its bucket |
| `VolumeProfile.DefaultStepIsFiftieth` | ntrade/domain/analytics/volume_profile.py:44-49 | the default width is a fiftieth of the span up to half a paisa, never below 0.05, and 1 for a flat span |
| `VolumeProfile.BucketVolumes` | ntrade/domain/analytics/volume_profile.py:82-102 | no volume is lost and each bucket holds exactly its own bars |
| `VolumeProfile.ValueArea` | ntrade/domain/analytics/volume_profile.py:108-127 | a contiguous range round the first busiest bucket, grown greedily to the first range holding 68% |
| `VolumeProfile.LastBucketWasNeeded` | ntrade/domain/analytics/volume_profile.py:115-127 | before the bucket added last, at whichever end it lies, less than 68% is held |
| `VolumeProfile.ValueAreaIsUnique` | ntrade/domain/analytics/volume_profile.py:115-127 | the greedy growth, and so the area, is determined by the volumes |
| `VolumeProfile.BuildVolumeProfile` | ntrade/domain/analytics/volume_profile.py:53-144 | the profile's levels, point of control and value area, and the empty profile for empty or volume-free bars |

## Left out

- Portfolio.LedgerIdentity: exact arithmetic; the engine rounds the balance to four decimals after each fill.
- Portfolio.PortfolioEngine.OnFilled: exact arithmetic, without the four-decimal rounding of the balance.
- Portfolio.PaperBroker.PlaceOrder: exact arithmetic, without the four-decimal rounding of the average.
- Portfolio.PaperMirrorsPortfolio: exact arithmetic; the paper book rounds its average to four decimals and the portfolio engine does not, so in floats they agree up to that rounding.
- VolumeProfile.BuildVolumeProfile: levels are bucket numbers (price is number times step) and unrounded; the optional buy/sell split (`delta`) and its length error are not modelled.
- BrokerExecution.BrokerExecution.Submit: order-type parsing, commissions and statutory charges of a fill are not modelled; fills carry zero charges here, the ledger takes them as given.
- BrokerExecution.BrokerExecution.EmitFill: commission and statutory charges of a fill are zero here.
- BrokerExecution.BrokerExecution.RestoreOpen: sides and statuses are typed, so a value the source could not parse cannot occur.
- RateGate.BrokerRateGate.Acquire: bounded waiting is for one caller on the class; with competing callers the source gives no bound. A window with limit below 1 is excluded, since the source indexes an empty deque there.
- HalfTrend.HalfTrend: rolling and exponentially weighted pandas columns are taken by their definitions, with an amplitude and an ATR period of at least 1; floating-point rounding and the overlay's four-decimal rounding are not modelled.
- TickSimulator.TicksStayInsideIff: from 53 seconds on, which covers the 60-second default and every chart timeframe; below that the noise need not reach the extremes, and only the "if" half is stated.
- TickSimulator.Interp: anchor indices lie in the path; an index outside it makes the source fail or wrap.
- Strategies.BuildOverlay: markers carry index and side only, not time, price and line value.
- LivePump.PumpState.ApplyTick: the message's rounding, bar persistence and overlay recomputation are not modelled.
- CandleEngine.CandleEngine.Flush: the candle's exchange label is not modelled.
- The per-symbol dictionaries of the candle engine and the per-class ones of the rate gate are held in one record per key.
- `reconcile_open` is modelled as the session step that adopts one unknown order; the order book it reads, its instrument lookup and its unmappable entries are not.
- `trip_kill_switch`, `modify` and `cancel` of the broker executor: broker calls without local state.
- JSONL encoding, torn-line handling and file I/O of the event store.
- Event classes are not typed in the bus: a dispatch lists the handler calls in their order, the recorder last.
- Broker transport, authentication, websocket feed, HTTP routes, scripts and the UI.
- Parquet storage, resampling, the remaining indicators, Black-Scholes and implied volatility, scanners, screeners, registries and cost schedules.
