# Trading core: a verified model

The backend under `backend/` runs trading instances: it places orders, trails profits, keeps grids of
orders, accounts for positions, guards risk and limits its calls to exchanges. This project models the
stateful components at its centre in Dafny and proves what they keep over whole runs. Money and prices
are exact reals; the exchange, the clock, prices and technical indicators are inputs that may answer in
any way.

Each component comes in up to three layers. A value-level description gives the effect of every event
as a function. A class (or a method with loops) in the form of the source, updated in place, is proved
to do exactly that. Lemmas then say what every run of events keeps.

| files | component |
|---|---|
| `ProfitLock`, `ProfitLockEvents`, `ProfitLockRuns`, `ProfitLockEngine` | trailing-stop state machine, what each event leaves, its runs, the engine and store |
| `Orders`, `OrderExecutor`, `Execution`, `ExecutionAnswers`, `ExecutionEngine` | order lifecycle and tracker, retry loop, the protocol split at its awaits, what each answer of the exchange leaves, the engine |
| `ExecutionRuns`, `ExecutionOnce`, `ExecutionExamples` | all interleavings: what holds while exchange ids are unshared, what holds whatever ids are reported, runs that show why the assumptions are needed |
| `Grid`, `GridCalculator`, `CircuitBreaker`, `GridMachine`, `GridEngine` | levels and planner, level generation, the drop breaker, handlers, the engine |
| `GridCoupling`, `GridRuns`, `GridPauses`, `GridExamples` | planner against state machine, accounting over runs, what a pause takes down and a resume brings back, runs that show it |
| `GridAwaits`, `GridOverlaps` | the handlers split at every await and all their interleavings, runs in which they get in each other's way |
| `Portfolio`, `Exposure`, `Aggregator`, `RiskGate`, `Drawdown` | cost basis, exposure and aggregation, the order gate, drawdown |
| `TokenBucket`, `RateLimiter` | one bucket's runs, the limiter over all endpoints |
| `Subscriptions`, `Reconciler`, `RetryWorker`, `DropAnalyzer` | shared market streams, grid reconciliation, job retries, the critical daily drop |

`dafny verify dfyconfig.toml` checks everything.

## Where the code and its documentation differ

The model follows the code. For each difference lemmas give the exact condition under which the
documented behaviour holds, and the last one named shows an input or a run on which it fails.

- The profit cap is documented to sell as soon as it is reached. It does so exactly for a lock that has
  already triggered (`ProfitLockRuns.CapSellsIffTriggered`, `CapMissedWhileMonitoring`); a cap not above
  the trigger never sells.
- The breaker is documented to cancel pending buys. It looks for them on WAITING levels, while
  outstanding buys belong to OPEN levels, so every one of them stays
  (`GridCoupling.TripLeavesBuysOutstanding`, `GridExamples.TrippedWithBuyOutstanding`).
- It is documented to place no new buys then. That holds for every price update, from any state
  (`GridCoupling.BreakerStopsBuys`), but a handler that was waiting when the breaker tripped goes on to the
  buys it has ahead, and activating or resuming by hand does not look at the breaker (`GridAwaits.StoppedSendsBuyIff`, `NoBuysWhileStopped`, `GridOverlaps.BuysAfterTheTrip`).
- Resuming a grid is documented to place its orders again. A pause cancels every OPEN level, and no
  transition out of CANCELLED is ever made, so the orders come back exactly if there were none
  (`GridPauses.ResumeRestoresIff`, `GridRuns.CancelledForever`, `GridExamples.PausedForGood`).
- An OPEN level is meant to have one order. Handlers await the exchange with every order they send, so two may
  wait on one level; the levels agree with their orders throughout a run exactly if every fill and every
  answer is harmless when it comes (`GridAwaits.RunStaysCoupledIff`, `GridCoupling.LateAnswerKeepsCouplingIff`,
  `GridOverlaps.SecondBuyTearsLevel`).
- A placement that the exchange accepts with a status the table rejects is stored as failed under its
  local id (`ExecutionRuns.StoredIdFollowsIff`, `ExecutionExamples.AcceptedYetFailed`).
- The risk gate values a symbol at the order's own price, the books at the last known one, so it bounds
  an exposure exactly if the order price covers it (`RiskGate.GateBoundsIff`, `GateBoundsExchangeIff`,
  `GateLetsThrough`).
- Positions that fills have closed still count as open ones: the limit means what it says exactly if no
  stored position is closed (`RiskGate.RefusalsMeanFullIff`, `RefusedWithNothingOpen`).
- One stream per logical subscription is kept exactly if no two first subscribers wait at the same time
  (`Subscriptions.OpenKeepsInvIff`, `ConcurrentFirstSubscribersLeak`).
- The first refill of a bucket reads the clock twice and may take the level below zero
  (`TokenBucket.LevelBoundedIff`, `FirstRefillMayOwe`).
- A grid level that names two filled orders is reported as changed by every reconciliation
  (`Reconciler.SecondRunQuietIff`, `ChangedForever`).
- Reconciling is meant to bring a level in line with its orders. The two agree afterwards exactly if its buy was
  not filled and its sell neither filled nor cancelled (`Reconciler.ReconciledStaysCoupledIff`). In particular
  the level of a cancelled order is documented to become WAITING. It does so exactly if the order is the level's
  buy; a cancelled sell leaves its level OPEN without an order, for good
  (`Reconciler.CancelledMakesWaitingIff`, `CancelledSellStrands`, `GridExamples.CancelledSellDoesNotWait`).

## Model

| member | source | states |
|---|---|---|
| `ProfitLockRuns.PercentageMeansGain` | backend/engine/profit_lock/calculator.py:41-82 | For acceptable inputs the profit percentage reaches a value exactly when the price lies that far above (long) or below (short) the entry price, whatever the quantity |
| `ProfitLockRuns.StepKeepsInv` | backend/engine/profit_lock/engine.py:55-249 | One event of any kind keeps the lock invariant: a monitoring lock is freshly enabled, a trailing lock has its peak, lock price and positive-cap facts, and the counters stay ordered |
| `ProfitLockRuns.RunKeepsInv` | backend/engine/profit_lock/engine.py:55-249 | The invariant holds after every run of events on a new engine, with placements reported in any order and any number of times |
| `ProfitLockRuns.OrderForPrice` | backend/engine/profit_lock/policy.py:53-103 | The order a price draws from a triggered lock closes the whole position, at the price itself if the cap is reached and otherwise at the lock price, which the price has fallen to |
| `ProfitLockRuns.ProfitFloor` | backend/engine/profit_lock/policy.py:53-103 | In every run, an order a long lock sends of its own accord sells the whole quantity at no less than entry·(1+trigger/100)·(1−trail/100), hence not below entry when that floor is not below it |
| `ProfitLockRuns.OnlyTriggeredLocksSell` | backend/engine/profit_lock/engine.py:338-356 | An order is only ever sent from TRIGGERED, it leaves the lock EXECUTING, and the only events that send one are a price (automatic) and the manual call (at its own price) |
| `ProfitLockRuns.PeakIsHighestWatched` | backend/engine/profit_lock/policy.py:61-103 | While TRIGGERED or EXECUTING, the peak is the maximum of the entry price, the triggering price and the prices handled since apart from cap hits, and the lock price is peak·(1−trail/100) |
| `ProfitLockRuns.TrailingRatchet` | backend/engine/profit_lock/engine.py:277-317 | Between any two moments of a run within one enabling, neither the peak nor the lock price goes down, through cancellations, failures and manual orders |
| `ProfitLockRuns.GenerationCountsEnablings` | backend/engine/profit_lock/engine.py:55-113 | The identity of the stored record counts the accepted enablings |
| `ProfitLockRuns.LocksCounted` | backend/engine/profit_lock/engine.py:202-247 | Across re-enablings, locks executed ≤ locks triggered ≤ enablings |
| `ProfitLockRuns.CapSellsIffTriggered` | backend/engine/profit_lock/policy.py:53-59 | At a price that reaches the cap, a watching lock sells if and only if it has been triggered before; from MONITORING the handler raises and the record stays as it is |
| `ProfitLockRuns.CapAtMostTriggerNeverSells` | backend/engine/profit_lock/policy.py:53-59 | A lock whose cap does not exceed its trigger never trails and never sends an order, in any run |
| `ProfitLockRuns.CapMissedWhileMonitoring` | backend/engine/profit_lock/state.py:96-101 | A concrete jump past the cap from MONITORING: the step raises, no order is sent, the state stays |
| `ProfitLockRuns.TrailSellsIff` | backend/engine/profit_lock/policy.py:83-105 | In every run, a triggered lock at a price below the cap sends an order if and only if the price has fallen to the stored lock price; the order carries that price, the step does not raise, and only events and decisions are counted |
| `ProfitLockRuns.TriggersIff` | backend/engine/profit_lock/policy.py:67-81 | In every run, a monitoring lock below the cap is triggered by a price if and only if the gain reaches the trigger percentage; it sends nothing, and a price that falls short leaves the record as it is |
| `ProfitLockEvents.EnteredFrom` | backend/engine/profit_lock/state.py:91-130 | The table read the other way: the statuses from which each status may be entered |
| `ProfitLockEvents.EnableStartsAfresh` | backend/engine/profit_lock/engine.py:55-113 | Enabling raises exactly on a trigger that is not positive or a trail outside (0, 100), changing nothing; otherwise the record watches from the entry price, one generation on, with the counters kept |
| `ProfitLockEvents.PriceIgnoredOrRefused` | backend/engine/profit_lock/engine.py:140-180 | A price nobody watches for changes nothing; one for which no profit can be computed is counted and raises |
| `ProfitLockEvents.OrderEnds` | backend/engine/profit_lock/engine.py:202-247 | The awaited order filled leaves LOCKED and executed and counts it, cancelled leaves TRIGGERED; news of any other order changes nothing |
| `ProfitLockEvents.PlacementEnds` | backend/engine/profit_lock/engine.py:357-376 | A placed order leaves its id with the record that asked, a failed placement ERROR and a count where the lock watches or executes, and it raises in any case |
| `ProfitLockEvents.DisableEnds` | backend/engine/profit_lock/engine.py:115-134 | Whether disabling waits for a cancellation, what it leaves of the record and the counters for either answer and either identity of the record, and that it raises exactly for a lock that is absent or disabled already |
| `ProfitLockEvents.ManualOrder` | backend/engine/profit_lock/engine.py:266-271 | The manual call sends an order for the whole position at the given price from TRIGGERED, and raises from anywhere else |
| `ProfitLockEngines.ProfitLockEngine.Transition` | backend/engine/profit_lock/state.py:166-172 | Moves a record along the table and reports a rejected transition, changing nothing then |
| `ProfitLockEngines.ProfitLockEngine.Enable` | backend/engine/profit_lock/engine.py:55-113 | The instance gets the outcome of the enabling step, its counters kept on re-enabling; no other instance changes |
| `ProfitLockEngines.ProfitLockEngine.OnPriceUpdate` | backend/engine/profit_lock/engine.py:140-180 | The instance gets the outcome of the price step: counters, trigger, trail, or the placement it then awaits |
| `ProfitLockEngines.ProfitLockEngine.HandleTrigger` | backend/engine/profit_lock/engine.py:277-303 | Triggering stores peak and lock price and counts the trigger |
| `ProfitLockEngines.ProfitLockEngine.PlaceLockOrder` | backend/engine/profit_lock/engine.py:338-356 | Up to the await: EXECUTING and the closing order, or a raise that changes nothing |
| `ProfitLockEngines.ProfitLockEngine.ExecuteNow` | backend/engine/profit_lock/engine.py:266-271 | The manual order at a given price |
| `ProfitLockEngines.ProfitLockEngine.OrderWasPlaced` | backend/engine/profit_lock/engine.py:357-368 | The order id reaches the store only if the record was not replaced while the coroutine waited |
| `ProfitLockEngines.ProfitLockEngine.OrderWasNotPlaced` | backend/engine/profit_lock/engine.py:369-376 | A failed placement puts the current record into ERROR and counts it, where the table allows that |
| `ProfitLockEngines.ProfitLockEngine.OnOrderFilled` | backend/engine/profit_lock/engine.py:202-230 | A fill of the awaited order locks the record and counts it; any other fill is ignored |
| `ProfitLockEngines.ProfitLockEngine.OnOrderCancelled` | backend/engine/profit_lock/engine.py:232-247 | A cancellation of the awaited order returns the lock to TRIGGERED |
| `ProfitLockEngines.ProfitLockEngine.Disable` | backend/engine/profit_lock/engine.py:115-124 | Up to the await on the cancellation: without an awaited lock order the flags are cleared, with one its cancellation is asked for first |
| `ProfitLockEngines.ProfitLockEngine.FinishDisable` | backend/engine/profit_lock/engine.py:124-134 | After the await: a failed cancellation is only counted, and the flags are cleared on the record held since before it, or the transition raises |
| `TokenBucket.WindowBound` | backend/exchanges/rate_limiter.py:41-79 | Over any run of visits to a bucket and any window, the tokens granted are at most the capacity plus what the window refills |
| `TokenBucket.WindowPays` | backend/exchanges/rate_limiter.py:41-79 | What was granted in a window plus what is left is covered by one full bucket and the refill since the window opened |
| `TokenBucket.LevelBoundedIff` | backend/exchanges/rate_limiter.py:41-51 | The level stays within [0, max] in every prefix of a run exactly when the gap between the two clock readings of the first refill costs no more than a full bucket |
| `TokenBucket.FirstRefillMayOwe` | backend/exchanges/rate_limiter.py:41-51 | A bucket of one token whose first refill reads the clock three seconds apart starts two tokens in debt |
| `TokenBucket.PollsCompose` | backend/exchanges/rate_limiter.py:41-51 | Refilling at two moments equals refilling once at the later one, so polling never loses or gains tokens |
| `TokenBucket.DeficitRefilled` | backend/exchanges/rate_limiter.py:76-79 | After a sleep of deficit/rate the next refill can pay the request |
| `TokenBucket.GrantsIff` | backend/exchanges/rate_limiter.py:41-79 | On a bucket with an update behind it, a try is granted exactly if it asks for no more than the capacity and no more than what is held plus what has accrued; what try and poll leave in the bucket |
| `TokenBucket.SpentComesOut` | backend/exchanges/rate_limiter.py:71-79 | Over any run without refills, what was spent and what is left are a full bucket |
| `TokenBucket.WindowOfAll` | backend/exchanges/rate_limiter.py:41-79 | A window that holds every visit grants all that is spent |
| `RateLimiters.EveryEndpointIsLimited` | backend/exchanges/rate_limiter.py:22-79 | The window bound for every endpoint of a limiter, since its bucket was last filled by configure or reset |
| `RateLimiters.VisitKeepsValid` | backend/exchanges/rate_limiter.py:41-84 | A visit to one endpoint moves no other bucket and keeps all of them accounted for |
| `RateLimiters.VisitSpends` | backend/exchanges/rate_limiter.py:71-84 | A visit adds exactly what it is granted to the account of its endpoint and nothing to any other |
| `RateLimiters.ConfigureKeepsValid` | backend/exchanges/rate_limiter.py:32-35 | Configuring fills one bucket, starts its account anew and keeps the others |
| `RateLimiters.ResetKeepsValid` | backend/exchanges/rate_limiter.py:93-95 | Resetting one endpoint starts its account at the reading of the clock |
| `RateLimiters.RateLimiter.Configure` | backend/exchanges/rate_limiter.py:32-35 | The dictionaries get the new configuration and a full bucket |
| `RateLimiters.RateLimiter.Reset` | backend/exchanges/rate_limiter.py:93-95 | The bucket is full and last updated now |
| `RateLimiters.RateLimiter.Refill` | backend/exchanges/rate_limiter.py:41-51 | The level becomes min(max, level + elapsed·rate), the elapsed time measured against a second reading on the first visit |
| `RateLimiters.RateLimiter.CanAcquire` | backend/exchanges/rate_limiter.py:81-84 | True exactly if the refilled level covers the amount; the refill is kept |
| `RateLimiters.RateLimiter.TryAcquire` | backend/exchanges/rate_limiter.py:71-74 | One round of the loop grants exactly if the refilled level covers the amount, and then takes it |
| `RateLimiters.RateLimiter.Suspend` | backend/exchanges/rate_limiter.py:76-79 | Sleeping while others poll any bucket spends nothing and leaves this bucket refilling as if it had not been looked at |
| `RateLimiters.RateLimiter.Acquire` | backend/exchanges/rate_limiter.py:53-79 | Nothing asked and infeasible requests leave the limiter alone; a feasible request is granted after at most one sleep, as the last visit of its account, and leaves at least zero tokens; with a refill rate of zero it is granted from what is there or divides by zero; exactly the amount is spent if it is granted and nothing otherwise, by any endpoint |
| `Orders.TerminalHasNoWayOut` | backend/engine/execution/order_state.py:13-44 | FILLED, CANCELLED and REJECTED are exactly the states without successors |
| `Orders.EnteredFrom` | backend/engine/execution/order_state.py:13-44 | The table read the other way: the statuses from which each status may be entered |
| `Orders.OrderTracker.Track` | backend/engine/execution/tracker.py:27-47 | A new order is stored under its account and id and indexed by its request |
| `Orders.OrderTracker.GetByRequestId` | backend/engine/execution/tracker.py:49-54 | The order a request is indexed to, if its key is still stored |
| `Orders.OrderTracker.ReKey` | backend/engine/execution/tracker.py:64-78 | The same order object moves to the new key and its request is re-indexed; an unknown key changes nothing |
| `Orders.OrderTracker.Update` | backend/engine/execution/tracker.py:80-98 | The result of the order under a key is replaced, its status if one is given, and its retries are counted if asked; an unknown key changes nothing |
| `Orders.UpdateStores` | backend/engine/execution/tracker.py:80-98 | An update stores result and status of the order under the key, a restatement the result, a retry the count, field by field, and no other order changes |
| `Orders.OrderTracker.Transition` | backend/engine/execution/execution_engine.py:255-258 | Moves an order along the table, or raises and changes nothing |
| `OrderExecutor.Execute` | backend/engine/execution/executor.py:44-100 | At most max_retries adapter calls; only transient failures are retried, nothing is tried after an acceptance or refusal, and the time slept is the sum of the exponential pauses, one after every attempt but the last |
| `OrderExecutor.PausesGrow` | backend/engine/execution/executor.py:57-85 | With a multiplier of at least one the pauses never shrink and never exceed the maximum delay |
| `OrderExecutor.PauseIsBounded` | backend/engine/execution/executor.py:62-85 | The first pause is the base delay; pause k is base·multiplier^k or the maximum delay, whichever is less |
| `OrderExecutor.PausesAddUp` | backend/engine/execution/executor.py:62-85 | While the maximum is not passed, the pauses add up as a geometric series: (multiplier − 1)·total = base·multiplier^n − base |
| `OrderExecutor.PausesAtMaximum` | backend/engine/execution/executor.py:84-85 | Past the maximum each further pause adds exactly that much |
| `ExecutionEngines.ExecutionEngine.PlaceOrder` | backend/engine/execution/execution_engine.py:70-94 | Up to the await: a known request returns its stored result, an unknown one is tracked, submitted and awaited, or refused before tracking |
| `ExecutionEngines.ExecutionEngine.FinishPlacement` | backend/engine/execution/execution_engine.py:94-124 | After the await: re-key, transition and store, or mark failed |
| `ExecutionEngines.ExecutionEngine.FailPlacement` | backend/engine/execution/execution_engine.py:107-124 | A failed placement is stored as rejected where the table allows it |
| `ExecutionEngines.ExecutionEngine.CancelOrder` | backend/engine/execution/execution_engine.py:126-144 | Up to the await: terminal orders are returned, others go to CANCELLING or raise |
| `ExecutionEngines.ExecutionEngine.FinishCancel` | backend/engine/execution/execution_engine.py:144-176 | After the await: CANCELLED is stored, or the exchange is asked for the order instead |
| `ExecutionEngines.ExecutionEngine.SyncOrder` | backend/engine/execution/execution_engine.py:209-218 | Up to the await: an unknown order or account raises |
| `ExecutionEngines.ExecutionEngine.FinishQuery` | backend/engine/execution/execution_engine.py:218-224 | After the await: the reported status is taken if the table allows it |
| `ExecutionEngines.ExecutionEngine.SweepOne` | backend/engine/execution/execution_engine.py:194-198 | After a cancellation that worked: a tracked order becomes CANCELLED or the sweep raises |
| `ExecutionEngines.ExecutionEngine.CancelAllOrders` | backend/engine/execution/execution_engine.py:178-200 | The loop over the listed orders: refused cancellations are passed over, the others stored and collected, and the first rejected transition ends it |
| `Execution.SweepCancels` | backend/engine/execution/execution_engine.py:178-200 | A sweep that does not raise leaves every tracked order whose cancellation worked CANCELLED and reports it |
| `Execution.SweepRaisesIff` | backend/engine/execution/execution_engine.py:178-200 | A sweep raises exactly if an order whose cancellation worked is tracked with a status that cannot become CANCELLED, or was cancelled earlier in the same sweep; otherwise it reports exactly the orders whose cancellation worked, as listed |
| `ExecutionAnswers.PlacementBegins` | backend/engine/execution/execution_engine.py:70-94 | Before the exchange is asked: a known request is answered from its record, a missing adapter or an invalid order raises, any other is tracked, indexed and SUBMITTING |
| `ExecutionAnswers.PlacementAnswered` | backend/engine/execution/execution_engine.py:94-124 | For every text the exchange may answer a placement with, the status stored and what the caller gets: filled, partially_filled, rejected and open or unknown texts are returned, pending, cancelled and expired raise and leave FAILED |
| `ExecutionAnswers.PlacementFailed` | backend/engine/execution/execution_engine.py:107-124 | A placement that fails leaves the order FAILED under its local id and raises |
| `ExecutionAnswers.QueryAnswered` | backend/engine/execution/execution_engine.py:209-224 | For every text and every status of the order: filled, partially_filled, cancelled and expired (both CANCELLED), rejected and open are stored where the order may still become that, and the query raises and changes nothing elsewhere |
| `ExecutionAnswers.QueryFailed` | backend/engine/execution/execution_engine.py:209-224 | A query without an answer raises and changes nothing |
| `ExecutionAnswers.CancellationBegins` | backend/engine/execution/execution_engine.py:126-152 | A cancellation returns the stored result of an order that has ended, is sent for one that works, and raises for any other |
| `ExecutionAnswers.CancellationAnswered` | backend/engine/execution/execution_engine.py:152-176 | A cancellation that works is stored CANCELLED unless the order has ended meanwhile, which raises; a refused one asks the exchange about the order |
| `ExecutionAnswers.UnknownRaises` | backend/engine/execution/execution_engine.py:126-224 | What is not tracked can be neither cancelled nor queried, and an account without an adapter is asked nothing |
| `ExecutionEngines.ExecutionEngine.Resume` | backend/engine/execution/execution_engine.py:94-124 | Whichever coroutine the exchange answers takes exactly its own continuation |
| `ExecutionRuns.ReKeyedResolvesIff` | backend/engine/execution/tracker.py:64-78 | Re-keying keeps every request resolving to its own order exactly when no other order holds the new key |
| `ExecutionRuns.PlaceEndsKeeps` | backend/engine/execution/execution_engine.py:94-124 | Every way a placement can end keeps keys, index and owners in agreement and moves the order along the table |
| `ExecutionRuns.StepKeepsInv` | backend/engine/execution/execution_engine.py:70-224 | Every step of every operation keeps the invariant of the interleaved engine |
| `ExecutionRuns.RunKeepsInv` | backend/engine/execution/execution_engine.py:70-224 | The invariant holds in every state of every interleaving, under fresh local ids and exchange ids that name one order each |
| `ExecutionOnce.StepKeepsInv` | backend/engine/execution/execution_engine.py:70-224 | Whatever ids the exchange reports for placements, every step of every operation leaves each waiting placement stored under its own placeholder and every executed request indexed to a stored order |
| `ExecutionOnce.StepKeepsInvIff` | backend/engine/execution/execution_engine.py:209-224 | While placeholders stay the engine's own, a step keeps that invariant exactly if a query about an order still being placed is answered under the id asked about, or with a status the order may not take |
| `ExecutionOnce.RunKeepsInv` | backend/engine/execution/execution_engine.py:70-224 | So in every state of every interleaving |
| `ExecutionOnce.RunKeepsInvIff` | backend/engine/execution/execution_engine.py:70-224 | A run keeps the invariant throughout exactly if all its queries are answered that way |
| `ExecutionOnce.AtMostOnce` | backend/engine/execution/execution_engine.py:70-124 | However operations interleave and even if the exchange reports one id for many orders, no request reaches the executor twice, and its adapter placements are at most max_retries |
| `ExecutionOnce.RepeatSendsNothing` | backend/engine/execution/execution_engine.py:70-81 | Then asking again for a request that was executed returns a stored result and changes nothing |
| `ExecutionExamples.AnsweredTooEarlySendsTwice` | backend/engine/execution/execution_engine.py:209-224 | A run in which a query about an order that is still being placed is answered under another id: one request reaches the executor twice |
| `ExecutionRuns.RepeatReturnsOwnOrder` | backend/engine/execution/execution_engine.py:70-81 | Asking again for a request that was executed returns the stored result of the very order it started, and changes nothing |
| `ExecutionRuns.StatusesWalk` | backend/engine/execution/order_state.py:13-44 | Between two moments of a run an order keeps its identity and its statuses form a path in the transition table |
| `ExecutionRuns.HistoriesWalk` | backend/engine/execution/order_state.py:13-44 | So in every run of the engine |
| `ExecutionRuns.TerminalForever` | backend/engine/execution/order_state.py:36-44 | An order that is FILLED, CANCELLED or REJECTED stays so |
| `ExecutionRuns.StoredIdFollowsIff` | backend/engine/execution/execution_engine.py:98-124 | After a placement the stored result is the exchange answer exactly when the reported status may follow SUBMITTING; otherwise the accepted order is FAILED with its local id, while its request still resolves to it |
| `ExecutionExamples.AcceptedYetFailed` | backend/engine/execution/execution_engine.py:98-124 | A run in which the exchange accepts an order as pending: the order is stored as failed under its placeholder id |
| `ExecutionExamples.SharedIdsConfuse` | backend/engine/execution/tracker.py:64-78 | A run in which two orders are reported under one id: the first request resolves to the second order |
| `Grid.MakePlan` | backend/engine/grid/planner.py:48-99 | The plan is, in level order, what is wanted of each level, with buys on skipped levels left out |
| `Grid.PlanInitial` | backend/engine/grid/planner.py:138-165 | The initial plan buys every waiting level below the price |
| `Grid.PlanCancelAll` | backend/engine/grid/planner.py:167-190 | The cancel plan names the order of every open level that has one, its buy first |
| `Grid.PlanLevelIff` | backend/engine/grid/planner.py:101-136 | A level is bought for exactly if it hit its target or waits at or above the price, sold for exactly if it is filled at or below the price, each at its own limit and quantity, and otherwise left alone |
| `Grid.GridEnteredFrom` | backend/engine/grid/state.py:28-43 | The statuses from which each status of a grid may be entered |
| `Grid.LevelEnteredFrom` | backend/engine/grid/state.py:45-68 | The statuses from which each status of a level may be entered |
| `GridCalculator.CalculateLevels` | backend/engine/grid/calculator.py:53-92 | Levels are generated exactly for acceptable parameters: as many as asked for, each the evenly spaced level of its index |
| `GridCalculator.EvenLevelBounds` | backend/engine/grid/calculator.py:72-91 | Each level lies within the range, sells between one spacing and 2.5 spacings higher and not above the range, and its quantity is worth the investment at its buy price |
| `GridCalculator.EvenParts` | backend/engine/grid/calculator.py:72-91 | The buy prices cut the range into equal parts, a level sells two and a half parts higher or, exactly where that leaves the range, at its end, and a level without a positive price buys nothing |
| `GridCalculator.CycleEarns` | backend/engine/grid/calculator.py:72-91 | A completed cycle of any level sold at its limit or better earns at least spacing·investment/upper |
| `GridCalculator.CalculateWithAveraging` | backend/engine/grid/calculator.py:112-176 | Averaging levels exist exactly if the parameters are positive and every price on the ladder is; each follows its step |
| `GridCalculator.LadderDescends` | backend/engine/grid/calculator.py:143-176 | With drop rates between 0 and 100 after step 0, every later step buys cheaper, at a positive price |
| `GridCalculator.LadderReachesIff` | backend/engine/grid/calculator.py:143-176 | A step has a price exactly if no step up to it, except those numbered 0, drops by 100 percent or more |
| `GridCalculator.ShiftIsPercent` | backend/engine/grid/calculator.py:143-176 | Buy and sell prices lie the stated percentage off the price they start from |
| `CircuitBreaker.CircuitBreakerState.CheckNewDay` | backend/engine/grid/circuit_breaker.py:144-187 | A new day clears the breaker and opens at the price; the first day only opens |
| `CircuitBreaker.CircuitBreakerState.Trigger` | backend/engine/grid/circuit_breaker.py:238-257 | Tripping stores trigger price and bottom |
| `CircuitBreaker.CircuitBreakerState.UpdateBottom` | backend/engine/grid/circuit_breaker.py:206-215 | While triggered the bottom follows lower prices |
| `CircuitBreaker.CircuitBreakerState.Reset` | backend/engine/grid/circuit_breaker.py:259-270 | Only the triggered flag is cleared |
| `CircuitBreaker.TripsAtThreshold` | backend/engine/grid/circuit_breaker.py:189-204 | The breaker trips exactly at or below day_open·(1−threshold/100) |
| `CircuitBreaker.TickStaysBelowOpen` | backend/engine/grid/circuit_breaker.py:144-257 | Every price keeps the relation bottom ≤ trigger price ≤ day_open·(1−threshold/100) of a triggered breaker |
| `CircuitBreaker.AlwaysTrippedBelowOpen` | backend/engine/grid/circuit_breaker.py:144-257 | So in every run of prices, days and indicator verdicts of a breaker that starts untriggered |
| `CircuitBreaker.TrippingStepHolds` | backend/engine/grid/engine.py:362-447 | The price that trips a trailing breaker never clears it in the same step and passes no buy |
| `CircuitBreaker.HoldsUntilRecovery` | backend/engine/grid/circuit_breaker.py:206-236 | From the price that trips a trailing breaker on, while no price of the day has recovered, nothing about it moves but the bottom, which is the minimum of that trigger price and all prices since, whatever the indicators say |
| `CircuitBreaker.LowIsLeast` | backend/engine/grid/circuit_breaker.py:206-215 | That minimum is one of the prices and no price is lower |
| `CircuitBreaker.ClearsAtFirstRecovery` | backend/engine/grid/circuit_breaker.py:217-236 | Within a day a trailing breaker clears, and buys pass again, exactly at the first price at or above bottom·(1+recovery/100), whatever the indicators say |
| `CircuitBreaker.NewDayClears` | backend/engine/grid/circuit_breaker.py:144-187 | The first price of a new day clears the breaker and cannot trip it when the threshold is positive |
| `CircuitBreaker.RecoveryIsPercent` | backend/engine/grid/circuit_breaker.py:217-236 | A price has recovered exactly if it lies the configured percentage above the low |
| `CircuitBreaker.ModesResume` | backend/engine/grid/engine.py:390-447 | For each mode of a triggered breaker, what lets buys pass and what clears it: WIDEN_STEP always passes and is cleared by the indicators, TA_CONFIRM passes and is cleared by them alone, TRAILING_BUY by the price alone, recovered from the low up to and including it |
| `GridCoupling.PlanIsWanted` | backend/engine/grid/planner.py:84-136 | An action is planned exactly if it is what some level wants |
| `GridCoupling.PlanFits` | backend/engine/grid/planner.py:84-136 | Every planned action suits the level it names, and no level is planned twice |
| `GridCoupling.DoAccepted` | backend/engine/grid/engine.py:943-988 | A fitting action is accepted by the level state machine, so it fails only if the exchange does, and then changes nothing |
| `GridCoupling.ExecuteKeeps` | backend/engine/grid/engine.py:508-526 | Carrying out a fitting plan, wholly or cut short, keeps every level coupled to its orders |
| `GridCoupling.SentFromPlan` | backend/engine/grid/engine.py:508-526 | Whatever happens, only planned actions are sent, and no buy while buys are blocked |
| `GridCoupling.ReachesTarget` | backend/engine/grid/engine.py:508-526 | Each action of a plan that is carried out leaves its level OPEN if it placed and CANCELLED if it cancelled |
| `GridCoupling.PlanIsAcceptedAndComplete` | backend/engine/grid/planner.py:84-190 | Any plan, the initial and the cancel plan included, is cut short exactly by the first order the exchange fails, and once it is carried out planning the same again gives nothing |
| `GridCoupling.WideningKeepsSells` | backend/engine/grid/planner.py:73-97 | Whatever state the levels are in, the sells planned with a widened step are, one by one and in order, those planned with no breaker |
| `GridCoupling.WideningOnlySkipsBuys` | backend/engine/grid/planner.py:73-97 | Whatever state the levels are in, widening keeps every other action and exactly the buys at levels divisible by the step |
| `GridCoupling.ClearPendingClearsNothing` | backend/engine/grid/engine.py:541-566 | In a coupled grid the cancellation of pending buys finds none to cancel |
| `GridMachine.ClearPendingClears` | backend/engine/grid/engine.py:541-566 | On any levels, exactly the buy ids of WAITING levels whose cancellation works are cleared, and nothing else changes |
| `GridMachine.BuyFillEnds` | backend/engine/grid/engine.py:568-596 | A filled buy frees its id and fills the level; an active grid at once offers the whole level at its sell price, and an answer makes it OPEN under the new id; a level that is absent or not OPEN raises |
| `GridMachine.SellFillEnds` | backend/engine/grid/engine.py:641-686 | A filled sell counts a cycle and adds (fill − buy price)·quantity, frees the id and leaves the level WAITING in an active grid and TP_HIT in any other; it raises exactly for a level that is absent or neither OPEN nor FILLED |
| `GridCoupling.StepStaysSound` | backend/engine/grid/engine.py:268-696 | Every event keeps every level coupled, fills being reported for the order a level has outstanding; only fills change what a level holds |
| `GridCoupling.BuyFillStaysSound` | backend/engine/grid/engine.py:568-598 | A buy fill makes its level hold and, in an active grid, puts its sell out; it raises exactly when placing that sell fails |
| `GridCoupling.MisreportedBuyKeepsCouplingIff` | backend/engine/grid/engine.py:568-598 | A buy fill reported for a level with a sell outstanding keeps the coupling exactly when the grid is active and a new sell is placed |
| `GridCoupling.SellFillKeepsCouplingIff` | backend/engine/grid/engine.py:641-696 | An accepted sell fill, rightly reported or not, keeps the coupling exactly when its level has no buy outstanding |
| `GridCoupling.LateAnswerKeepsCouplingIff` | backend/engine/grid/engine.py:943-988 | An exchange answer that may find its level changed keeps the coupling exactly when the level has no order of the other side and, for a placement, is not cancelled |
| `GridCoupling.SecondAnswerForgetsFirst` | backend/engine/grid/engine.py:943-970 | Of two updates that both send the buy of one level, the second overwrites the id of the first and then raises |
| `GridAwaits.AloneIsOneStep` | backend/engine/grid/engine.py:268-598 | A handler split at every await and answered with nothing in between ends exactly as it does in one step, whatever else is waiting |
| `GridAwaits.StepKeepsCouplingIff` | backend/engine/grid/engine.py:943-988 | With any other handlers waiting, a handler that begins or an answer that comes keeps the levels coupled exactly if it is harmless: no accepted fill for a level with an order of the other side, no good news that comes too late |
| `GridAwaits.RunStaysCoupledIff` | backend/engine/grid/engine.py:268-696 | In every interleaving of handlers split at their awaits, the levels are coupled throughout exactly if every input was harmless when it came |
| `GridOverlaps.SecondBuyTearsLevel` | backend/engine/grid/engine.py:943-970 | A run in which an activation and a price update wait for the buy of one level: the first fills, its sell is placed, and the second answer leaves the level with both orders |
| `GridAwaits.StoppedSendsBuyIff` | backend/engine/grid/engine.py:508-526 | While the breaker stops buying, a step sends a buy exactly if it is an answer that lets a handler from before go on to one, or an activation or resumption that starts with one |
| `GridAwaits.NoBuysWhileStopped` | backend/engine/grid/engine.py:508-526 | If no waiting handler had a buy ahead of it when the breaker stopped buying, none is sent for as long as it does, in any interleaving without activation or resumption |
| `GridOverlaps.BuysAfterTheTrip` | backend/engine/grid/engine.py:283-286 | A run in which an activation waits for the first of two buys while the breaker trips, and then sends the second |
| `GridCoupling.BreakerStopsBuys` | backend/engine/grid/engine.py:362-526 | In TA_CONFIRM and TRAILING_BUY, from any state of the levels, no price update that trips the breaker, or ends with it triggered, sends anything but sells |
| `GridCoupling.WidenedBuysAreSparse` | backend/engine/grid/engine.py:374-390 | In WIDEN_STEP, from any state, the tripping update sends no buy, and buys sent under the active breaker are at levels divisible by the integer multiplier |
| `GridCoupling.SellsPassTheBreaker` | backend/engine/grid/engine.py:508-526 | From any state and whatever the breaker does, an update that does not raise hands over exactly the sells planned with no breaker, in order, and one that raises a first part of them |
| `GridCoupling.SellsAlwaysPlaced` | backend/engine/grid/engine.py:508-526 | From any state, every sell planned with no breaker ends with its level OPEN, unless the update raises |
| `GridCoupling.TripLeavesBuysOutstanding` | backend/engine/grid/engine.py:541-566 | From any state a buy outstanding before the tripping update is outstanding after it under the same id; on coupled levels no other is |
| `GridExamples.TrippedWithBuyOutstanding` | backend/engine/grid/engine.py:541-566 | A run in which the breaker trips over an outstanding buy whose cancellation would have worked: it stays |
| `GridRuns.LevelsStayCoupled` | backend/engine/grid/engine.py:268-696 | In every reachable state an OPEN level has exactly one of its two order ids and any other level none |
| `GridRuns.FillsAlternate` | backend/engine/grid/engine.py:568-685 | The accepted fills of each level alternate, a buy first, and the cycles are the sell fills |
| `GridRuns.BooksBalance` | backend/engine/grid/engine.py:641-685 | total_cycles is the number of sell fills and total_profit the sum of (fill price − buy price)·quantity over them |
| `GridRuns.SellsEarn` | backend/engine/grid/engine.py:676-680 | Sells of whole levels at their limit or better earn at least the least cycle gain each |
| `GridRuns.ProfitPerCycle` | backend/engine/grid/calculator.py:72-91 | On an evenly spaced grid total_profit ≥ total_cycles·spacing·investment/upper_price in every run |
| `GridRuns.CancelledForever` | backend/engine/grid/planner.py:101-136 | A cancelled level stays exactly as it is in the rest of every run, resumptions included |
| `GridPauses.PauseCancels` | backend/engine/grid/engine.py:291-306 | A pause that works leaves every OPEN level CANCELLED and no other level changed |
| `GridPauses.ResumePlaces` | backend/engine/grid/engine.py:308-325 | A resume that works leaves every level OPEN that the planner wants an order for and no other level changed |
| `GridPauses.OrderAfterResumeIff` | backend/engine/grid/engine.py:291-325 | After a pause and a resume a level has an order exactly when it was not OPEN before the pause and the planner wants one for it |
| `GridPauses.ResumeRestoresIff` | backend/engine/grid/engine.py:291-325 | Every level that had an order before a pause has one again after the resume if and only if no level was OPEN |
| `GridExamples.PausedForGood` | backend/engine/grid/engine.py:291-325 | A run that activates, pauses and resumes a grid without any failure and ends with its level without an order |
| `GridEngines.GridEngine.PlaceOrder` | backend/engine/grid/engine.py:943-970 | The id is stored before the transition to OPEN is checked; failures of the exchange change nothing |
| `GridEngines.GridEngine.CancelOrder` | backend/engine/grid/engine.py:972-988 | The id is cleared before the transition to CANCELLED is checked |
| `GridEngines.GridEngine.ExecutePlan` | backend/engine/grid/engine.py:508-526 | The loop over a plan stops at the first exception and skips buys while they are blocked |
| `GridEngines.GridEngine.CancelAllPendingBuys` | backend/engine/grid/engine.py:541-566 | Clears the buy ids of WAITING levels whose cancellation works |
| `GridEngines.GridEngine.ActivateGrid` | backend/engine/grid/engine.py:268-289 | The grid becomes active and the initial plan is carried out, or it raises |
| `GridEngines.GridEngine.ResumeGrid` | backend/engine/grid/engine.py:308-325 | The grid becomes active and the ordinary plan is carried out |
| `GridEngines.GridEngine.PauseGrid` | backend/engine/grid/engine.py:291-306 | The cancel plan is carried out, then the grid pauses |
| `GridEngines.GridEngine.CloseAllGridOrders` | backend/engine/grid/engine.py:327-337 | The cancel plan is carried out |
| `GridEngines.GridEngine.OnBuyFilled` | backend/engine/grid/engine.py:568-598 | The level is filled and, in an active grid, its sell is placed |
| `GridEngines.GridEngine.OnSellFilled` | backend/engine/grid/engine.py:641-696 | The level takes profit, cycles and profit are booked, and an active grid waits again |
| `GridEngines.GridEngine.PassGate` | backend/engine/grid/engine.py:401-497 | The resume logic of the three modes and the ordinary gate |
| `GridEngines.GridEngine.OnPriceUpdate` | backend/engine/grid/engine.py:342-526 | Day rollover, trip, plan, gate and execution in the order of the code |
| `Portfolio.PortfolioManager.RegisterPosition` | backend/engine/risk/portfolio.py:41-71 | A valid position of a new instance is appended; anything else raises and changes nothing |
| `Portfolio.PortfolioManager.UpdatePosition` | backend/engine/risk/portfolio.py:73-121 | The fill is applied to the instance of that name, or raises: closed, oversized, nothing to average |
| `Portfolio.PortfolioManager.ClosePosition` | backend/engine/risk/portfolio.py:123-132 | The position moves to the closed list |
| `Portfolio.RealizedIsCashPlusHeld` | backend/engine/risk/portfolio.py:95-121 | After any run of fills, accepted or not, realized profit is the cash that changed hands plus (long) or minus (short) what is held at cost |
| `Portfolio.MarkToMarket` | backend/engine/risk/metrics.py:34-48 | Realized plus unrealized is the cash flow plus what is held at the market; a position closed by fills has realized exactly its cash flow |
| `Portfolio.EntryWithinOpeningPrices` | backend/engine/risk/portfolio.py:99-105 | The entry price never leaves the range of the opening prices |
| `Portfolio.OpeningFill` | backend/engine/risk/portfolio.py:92-105 | A buy on a long or a sell on a short position adds quantity and cost, and is refused exactly on a closed position or when nothing would be left to average over |
| `Portfolio.ClosingFill` | backend/engine/risk/portfolio.py:106-119 | Any other fill realizes the rise (long) or the fall (short) per unit, is refused exactly on a closed position or beyond its quantity, and closes the position exactly when nothing is left |
| `Portfolio.RegisteredIff` | backend/engine/risk/portfolio.py:41-71 | A position is taken on exactly if its instance has none, the side is long or short, and price and quantity are positive; instances stay unique |
| `Portfolio.UpdatedReachesOne` | backend/engine/risk/portfolio.py:87-121 | A fill reaches the position of its instance and no other |
| `Portfolio.ClosedMovesOne` | backend/engine/risk/portfolio.py:123-132 | A forced close moves the position of its instance, marked closed, and leaves every other where it was |
| `Exposure.ExposureBy` | backend/engine/risk/exposure.py:32-68 | Each map has exactly the keys of open positions, each with the notional of its positions |
| `Exposure.NetExposure` | backend/engine/risk/exposure.py:70-84 | Long less short notional of the open positions |
| `Exposure.CalculateExposure` | backend/engine/risk/exposure.py:86-114 | The report holds both sides, their sum and difference, and the three maps |
| `Exposure.TotalExposure` | backend/engine/risk/metrics.py:57-67 | The notional of the open positions |
| `Exposure.UnrealizedTotal` | backend/engine/risk/metrics.py:33-48 | The unrealized profit of the open positions that have a price |
| `Exposure.GroupsAddUp` | backend/engine/risk/exposure.py:32-68 | Grouping by any dimension loses and repeats nothing |
| `Exposure.ReportAgrees` | backend/engine/risk/exposure.py:86-114 | Each of the three maps sums to the total, which is what the total loop computes, and the net is what the net loop computes |
| `Exposure.KeysAreFields` | backend/engine/risk/exposure.py:32-68 | The keys of the three maps are the exchanges, accounts and symbols of the open positions |
| `Exposure.UnrealizedIsNetGain` | backend/engine/risk/metrics.py:33-48 | The unrealized profit is the net exposure at the given prices less the net exposure at the entry prices, for any positions and any prices |
| `Aggregator.Summarize` | backend/engine/risk/aggregator.py:87-115 | Long, short, net, count and average cost of the open positions |
| `Aggregator.Aggregate` | backend/engine/risk/aggregator.py:32-67 | One aggregate per key of an open position, of exactly the positions with that key |
| `Aggregator.AggregatesRecombine` | backend/engine/risk/aggregator.py:32-115 | The aggregates of any dimension recombine to the net position in both quantities, net and count, and, while no quantity is negative, in average·quantity |
| `RiskGate.RiskManager.CheckOrderRisk` | backend/engine/risk/manager.py:89-192 | The verdict is that of the five rules in their order, and the counters of the user, and no others, move |
| `RiskGate.RiskManager.SetRiskParameters` | backend/engine/risk/manager.py:58-69 | Limits are stored and counters created at zero |
| `RiskGate.RiskManager.OnPriceUpdate` | backend/engine/risk/manager.py:82-87 | The price is stored and counted only for a user that has counters |
| `RiskGate.AllowedIff` | backend/engine/risk/manager.py:89-192 | An order is allowed if and only if its value, the capital of its instance where one is set, the repriced sum of its symbol with it, that of its exchange, and the number of stored positions are all within the limits; a denial names the first rule broken, the figure and the limit |
| `RiskGate.DefaultLimits` | backend/engine/risk/manager.py:71-74 | The limits a user is judged by until others are set |
| `RiskGate.PricingsCounted` | backend/engine/risk/manager.py:82-87 | After any run of calls, the prices counted for a user are those that came in after limits were set or an order was checked for that user |
| `RiskGate.CountersBalance` | backend/engine/risk/manager.py:105-192 | After any run of calls, checked = allowed + denied for every user, each the number of its checks with that outcome |
| `RiskGate.RunStaysWithin` | backend/engine/risk/manager.py:105-192 | Over any run in which positions are opened or grown only after an allowed check at a price not below the last known one or, where none is known, the average entries of the symbol, every symbol, every exchange and the number of positions stay within the limits, through closing fills and closes |
| `RiskGate.GateBoundsIff` | backend/engine/risk/manager.py:141-157 | Whatever the limits, an allowed order leaves its symbol within them exactly when its price is not below the last known price or, where none is known, the average entry of what is open in the symbol |
| `RiskGate.GateBoundsExchangeIff` | backend/engine/risk/manager.py:159-172 | The same for the exchange, the average being over what is open in the symbol on that exchange |
| `RiskGate.FillsFreeNoPlace` | backend/engine/risk/portfolio.py:159-160 | No run of fills, even one that closes everything, frees a place: a full book refuses every new instance |
| `RiskGate.RefusalsMeanFullIff` | backend/engine/risk/manager.py:174-184 | A refusal for too many open positions means, for all limits, that so many are open if and only if no stored position is closed |
| `RiskGate.RefusedWithNothingOpen` | backend/engine/risk/manager.py:174-184 | A run that opens one position and sells it off: with nothing open and room for one, the next instance is refused |
| `RiskGate.GateLetsThrough` | backend/engine/risk/manager.py:141-172 | A concrete order below the last known price that passes the limits of symbol and exchange and takes both beyond them |
| `RiskGate.RepricingRaises` | backend/engine/risk/manager.py:141-147 | Valuing a symbol at a price that is not below the last known one or, where none is known, the average entries, lowers neither its exposure nor that of the exchange |
| `Drawdown.CalculateDrawdown` | backend/engine/risk/metrics.py:69-88 | The one-pass result is the maximum of h[i]−h[j] over all i ≤ j, attained by a pair, and 0 for no history |
| `Subscriptions.SharedIffSameLetters` | backend/market/subscription_manager.py:39-42 | Two subscriptions share a stream exactly when their names differ only in (ASCII) case |
| `Subscriptions.BeginKeepsInv` | backend/market/subscription_manager.py:51-59 | Joining a stream, or starting to wait for one, keeps the partition |
| `Subscriptions.OpenedKeepsInv` | backend/market/subscription_manager.py:61-70 | A stream that opens while its key is free keeps the partition |
| `Subscriptions.UnsubscribedKeepsInv` | backend/market/subscription_manager.py:72-87 | A departure keeps the partition, and the last consumer of a stream closes its own wire once |
| `Subscriptions.RunKeepsInv` | backend/market/subscription_manager.py:44-87 | For any interleaving in which no key is opened twice at once, callbacks are exactly the mapped consumers, refcounts their number ≥ 1, and opened less closed wires the streams |
| `Subscriptions.RunKeepsCallbacks` | backend/market/subscription_manager.py:44-87 | In every such run each stream maps each of its consumers to the callback that consumer gave last |
| `Subscriptions.ServedWithOwnCallback` | backend/market/subscription_manager.py:44-87 | So a consumer that has its stream is mapped there to the very callback it subscribed with, whoever joins or leaves |
| `Subscriptions.OpenKeepsInvIff` | backend/market/subscription_manager.py:56-70 | An open that completes keeps the partition exactly when its key is still free; else some consumer loses its callback |
| `Subscriptions.ConcurrentFirstSubscribersLeak` | backend/market/subscription_manager.py:56-70 | Two first subscribers waiting at once: both leave, and one wire stays open that nothing refers to |
| `Subscriptions.SubscriptionManager.Subscribe` | backend/market/subscription_manager.py:44-61 | Up to the await: a consumer joins an existing stream or is entered and waits for a new one; the invariant is kept for a new consumer |
| `Subscriptions.SubscriptionManager.FinishSubscribe` | backend/market/subscription_manager.py:61-70 | After the await: the stream is stored under its key, or a failed open leaves the consumer entry only; the invariant is kept exactly when the key is still free |
| `Subscriptions.SubscriptionManager.Unsubscribe` | backend/market/subscription_manager.py:72-87 | The consumer leaves and the stream closes with the last one; the invariant is kept |
| `Subscriptions.SubscriptionManager.ConsumerCount` | backend/market/subscription_manager.py:103-105 | The sum of the refcounts in any state; under the invariant the consumers less those whose open is pending or failed, so all of them exactly when there are none of those |
| `Subscriptions.ConsumersCounted` | backend/market/subscription_manager.py:103-105 | In a partitioned hub the refcounts add up to the consumer map less the consumers outside any stream |
| `Subscriptions.SubscriptionManager.ActiveCount` | backend/market/subscription_manager.py:89-101 | The number of streams that pass both filters in any state; unfiltered and under the invariant, wires opened less wires closed |
| `Reconciler.RuntimeReconciler.ReconcileGrid` | backend/engine/recovery/reconciler.py:121-217 | Every level becomes what its orders say, and changes, missing levels and orphans are counted |
| `Reconciler.RuntimeReconciler.ReconcileLevel` | backend/engine/recovery/reconciler.py:147-185 | One level, buy side then sell side, rewritten in place, and how often it changed |
| `Reconciler.RuntimeReconciler.FindMissingOrders` | backend/engine/recovery/reconciler.py:65-90 | The OPEN levels that name a non-live id, in order |
| `Reconciler.RuntimeReconciler.FindOrphanOrders` | backend/engine/recovery/reconciler.py:92-119 | The live orders no level names, in order |
| `Reconciler.ReconciledTwice` | backend/engine/recovery/reconciler.py:147-185 | Reconciling twice leaves every level as once |
| `Reconciler.SecondRunQuietIff` | backend/engine/recovery/reconciler.py:147-185 | A second run counts no change exactly when no level names two filled orders |
| `Reconciler.ChangedForever` | backend/engine/recovery/reconciler.py:147-185 | A buy that fills and is reconciled, then a sell that is placed and fills: from then on every reconciliation counts two changes and makes none |
| `Reconciler.ReconciledStaysCoupledIff` | backend/engine/recovery/reconciler.py:147-185 | Reconciling keeps a level coupled to its orders exactly when its buy was not filled and its sell neither filled nor cancelled |
| `Reconciler.WaitsAfterIff` | backend/engine/recovery/reconciler.py:147-185 | A level is WAITING after reconciliation exactly if it was, or was OPEN with its buy cancelled, and no order of it was filled |
| `Reconciler.CancelledMakesWaitingIff` | backend/engine/recovery/reconciler.py:127-130 | A cancelled order makes its OPEN level WAITING exactly if it is the level's buy |
| `Reconciler.CancelledSellStrands` | backend/engine/recovery/reconciler.py:177-185 | A level whose sell was cancelled is OPEN without an order; no plan, no reconciliation and no report of missing levels ever concerns it again |
| `GridExamples.CancelledSellDoesNotWait` | backend/engine/recovery/reconciler.py:177-185 | A run in which a buy fills and its sell is found cancelled: the reconciled level is OPEN without an order |
| `Reconciler.SingleOrdersStayQuiet` | backend/engine/recovery/reconciler.py:147-185 | With at most one id per level a second run changes nothing |
| `Reconciler.TrackedXorOrphan` | backend/engine/recovery/reconciler.py:92-119 | A live order is tracked by a level or reported as an orphan, never both |
| `Reconciler.InMissing` | backend/engine/recovery/reconciler.py:65-90 | A level is reported missing exactly when it is OPEN and names a non-live id |
| `Reconciler.MissingAdd` | backend/engine/recovery/reconciler.py:65-90 | The missing levels are reported in the order of the levels |
| `Reconciler.OrphansAdd` | backend/engine/recovery/reconciler.py:92-119 | The orphans are reported in the order of the listing |
| `Reconciler.MissingIffUnlisted` | backend/engine/recovery/reconciler.py:142-193 | What both phases report: missing after reconciliation exactly when the level was OPEN and names an order the exchange does not list, unless its other order has just taken it out of OPEN |
| `DropAnalyzer.AnalyzeDetailed` | backend/services/daily_drop_analyzer.py:141-258 | The loops compute the analysis over the program's candidates: the first that qualifies with its counts, the fallback, or the division by an empty subset |
| `DropAnalyzer.CandidatesAscend` | backend/services/daily_drop_analyzer.py:64-71 | The candidate list is strictly increasing, so what is stated for ascending lists holds of the program |
| `DropAnalyzer.LeastQualifying` | backend/services/daily_drop_analyzer.py:214-258 | For any ascending list of candidates, with at least one sample required, the result is the least candidate that meets both requirements, and the fallback exactly when none does, the early exits included |
| `DropAnalyzer.LeastBorneOut` | backend/services/daily_drop_analyzer.py:187-258 | The same about the closes alone: a day counts for t if both closes are positive and it closed at or below the day before less t percent, and continues if the close a window later is at or below its own less the future drop; the result is the least candidate that enough days and the required part of them bear out, with those counts, or the fallback for the required rate |
| `DropAnalyzer.QualifiesMeansBorneOut` | backend/services/daily_drop_analyzer.py:187-230 | A candidate meets the requirements on the measured drops exactly if the closes bear it out, with equal counts |
| `DropAnalyzer.CandidatesAre` | backend/services/daily_drop_analyzer.py:64-71 | The candidates are every half percent from 1 to 10 and every percent to 15 |
| `DropAnalyzer.AnalysisFailsIff` | backend/services/daily_drop_analyzer.py:141-230 | About the closes alone: the analysis divides by zero exactly if no samples are asked for, there are closes enough, and it comes to a candidate no day fell as much as |
| `DropAnalyzer.StricterNeverLowers` | backend/services/daily_drop_analyzer.py:214-245 | A higher rate, more samples or a deeper required fall never lowers a data-driven threshold nor creates one |
| `DropAnalyzer.ScaleInvariant` | backend/services/daily_drop_analyzer.py:187-245 | Scaling every close by a positive factor leaves the whole result unchanged |
| `DropAnalyzer.ScanFailsIff` | backend/services/daily_drop_analyzer.py:218-227 | The scan divides by zero exactly when, with no minimum of samples, it meets a candidate no day reached before one that qualifies |
| `RetryWorkers.NextKeepsInv` | backend/engine/scheduler/retry.py:51-140 | Every step of submissions and overlapping rounds keeps jobs unique, accounted for and below their limit |
| `RetryWorkers.JobsAreConserved` | backend/engine/scheduler/retry.py:51-129 | In every interleaving submitted = succeeded + failed + queued + under way, failed = moved to the dead letter queue, and no job runs more than max(1, max_retries) times |
| `RetryWorkers.SubmissionsCounted` | backend/engine/scheduler/retry.py:51-60 | In every interleaving the jobs counted are those submitted |
| `RetryWorkers.ExhaustedBackoff` | backend/engine/scheduler/retry.py:137-140 | An exhausted job slept base·(2^(max_retries−1)−1) in all, over exactly max_retries runs |
| `RetryWorkers.RoundKeepsOrder` | backend/engine/scheduler/retry.py:62-71 | After a round the queue is the jobs that failed with retries left, in their old relative order |
| `RetryWorkers.QueueEmpties` | backend/engine/scheduler/retry.py:62-129 | Without new submissions the queue is empty after max(1, max_retries) rounds, whatever the outcomes |
| `RetryWorkers.RetryWorker.Submit` | backend/engine/scheduler/retry.py:51-60 | A fresh job is queued and counted |
| `RetryWorkers.RetryWorker.ProcessJob` | backend/engine/scheduler/retry.py:73-129 | One run: success, retry at the back of the queue, or dead letter, with the result it reports |
| `RetryWorkers.RetryWorker.ProcessQueue` | backend/engine/scheduler/retry.py:62-71 | A round takes the whole queue, runs it in order and reports each run |
| `RetryWorkers.BackoffsDouble` | backend/engine/scheduler/retry.py:137-140 | The sleeps of a job double from run to run after the first, which does not sleep, so all sleeps before a run come to one base less than the next backoff |
| `RetryWorkers.ReportTells` | backend/engine/scheduler/retry.py:73-129 | A report gives how often its job has run, and says success, retry or failed exactly as the job was counted, queued again or handed to the dead letter queue |

## Left out

- Decimal rounding to 28 digits and binary floats in the rate limiter: arithmetic is exact.
- Ids, clock readings, dates, technical indicator verdicts and exchange answers are inputs; uuid generation, logging and timing metrics are not modelled.
- ProfitLockEngine: `on_position_update`, symbol and account pass-through, average decision time, persistence and the removal of instances.
- ProfitLockRuns.ProfitFloor: states the floor for long locks only, because the policy trails the highest price for both sides.
- ExecutionEngine: timestamps, listings and adapter registration; status texts are taken to be lower case.
- ExecutionEngines.ExecutionEngine.CancelAllOrders: nothing else happens at its awaits; in the runs its rounds interleave with everything.
- ExecutionRuns.RunKeepsInv: assumes that an order id reported for an order has not named another order of the account, as index and histories need; `ExecutionExamples.SharedIdsConfuse` shows why.
- ExecutionOnce.AtMostOnce: assumes that the exchange does not report another order's placeholder id, and that a query about an order that is still being placed is answered under the id it was asked about; `ExecutionOnce.RunKeepsInvIff` says what the second is worth, and `ExecutionExamples.AnsweredTooEarlySendsTwice` that it is needed. While exchange ids are unshared, `ExecutionRuns.AtMostOnce` does without both.
- GridEngines: one instance per object, each handler running to its end (`GridAwaits` has the overlaps); trailing profit inside the handlers, `force_buy`, `force_sell` and the transitions to COMPLETED and ERROR are not driven, and order ids are never empty.
- GridAwaits: the cancellations of pending buys when the breaker trips are one step; on coupled levels there are none.
- GridRuns.LevelsStayCoupled: handlers run one at a time and fills are reported for the order a level has outstanding; `GridAwaits.RunStaysCoupledIff` does without both, and `GridCoupling.MisreportedBuyKeepsCouplingIff` and `GridCoupling.SellFillKeepsCouplingIff` say what a misreported fill does in one step.
- RateLimiters: `reset` of all endpoints at once.
- RateLimiters.RateLimiter.Acquire: only `can_acquire` runs while it sleeps, as the lock is held; `configure` and `reset` do not take the lock and could run then.
- Portfolio: the dictionary is a sequence in insertion order; timestamps, filters, `remove_position` and `clear` are not modelled.
- RiskGate: the text of denials and `check_portfolio_risk`.
- RiskGate.RunStaysWithin: prices and limits stand still during the run, as moving prices move exposures without any order.
- PortfolioMetrics: realized profit, margin usage and the report are single expressions.
- Aggregator.AggregatesRecombine: the cost column takes quantities of open positions to be non-negative, as registration and fills of real orders keep them.
- Subscriptions: the delivery of data to callbacks, and `clear`.
- Subscriptions.SharedIffSameLetters: letters are ASCII; case folding beyond it is not modelled.
- Reconciler: portfolio reconciliation and the text of details.
- RetryWorkers.RetryWorker.ProcessQueue: nothing is submitted during the round; `RetryWorkers.JobsAreConserved` covers overlapping submissions and rounds.
- RetryWorkers: errors raised by the dead letter callback, which the code swallows.
- DropAnalyzer: candles are their closes.
- Indicator formulas, the market-making calculator, the job scheduler, workers and heartbeats would only add easy members.
- The web application, databases, exchange adapters, notifications and the frontend.
