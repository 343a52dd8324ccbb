# Overlaat: a verified model of the admission core

Overlaat sits in front of one inference box and decides which request may run now. This project models
the four parts of it that are pure in-memory logic, and proves what they promise.

**The scheduler** (`overlaat/scheduler.py`). Every pool has a budget ledger; a request charges a cost to its
pool while it runs, its model may have a cap, and an exclusive pool admits one member model at a time. Waiters
stand in one global order of aged, key-clamped priority. Each pass of the admit loop reserves the remaining
budget of a pool for its head if budget alone blocks the head, admits the first waiter that fits, and starts
again, until nobody fits. `SchedulerModel` says what one `enqueue`, `withdraw` or `release` does to the state
as functions. `SchedulerImpl` holds the mutable `Waiter` and `Scheduler` classes, whose loops and in-place
updates are proved against those functions. The theorems are about every run: `SchedulerRuns` (ledgers,
bounds), `SchedulerPump`, `SchedulerOrder` and `SchedulerProgress` (the fixed point, time, progress, bounded
waiting), `SchedulerStarvation` (overtaking, the mutex hand-off, waiting that is not bounded), `SchedulerPools` (isolation), `SchedulerLabels` (wait labels) and `SchedulerFifo` (refinement of a
counting semaphore).

**The request lifecycle** (`overlaat/queue_proxy.py`). `Lifecycle` is a machine of interleaved steps -
arrival, operator cancel, wake-up of the coroutine, failed send, response headers, end of the stream - over the
scheduler, the metrics and the event log. `LifecycleProofs` proves what every interleaving keeps, among them the
race of a waiter that is admitted and cancelled before its coroutine resumes; `LifecycleRecords` that the event
log and the counters tell the truth about it. `ProxyImpl` has the mutable
`Call` and `Proxy` classes, every step of which is proved to be the one described. Each proxy run is shown to
be a run of the scheduler, so every scheduler theorem holds of it.

**The startup checks** (same file). `ProxyConfig` and `SelfProtection` model the never-admit check and the
"self-protection is inert" warning, and relate them to what the scheduler can reach; `BudgetBinds` gives the
exact condition under which a pool's budget never stands in anybody's way.

**Concurrency metrics** (`overlaat/metrics_db.py`). `Concurrency` proves the sweep-line integral equal to the naive
overlap sum; `Buckets` does the same for the two bucketing loops and the top-N partition. The lifecycle feeds
back into it: the recorded curve of a capped model never lies above its cap.

**The circuit breaker** (`overlaat/breaker.py`). `BreakerModel` is one model's breaker as a timed machine with the
clock as an input, with theorems over unbounded traces; `CircuitBreaker` is the mutable object.
`LifecycleBreaker` couples it to the requests: what the proxy's runs ask and tell it, on which of their steps it
trips, and what it then keeps away from the backend.

`StableSort` and `SetSums` hold the library facts the rest leans on.

The consequence that most scheduling theorems hang on: a head blocked by budget alone is measured against the
whole budget, the others against the budget less the head's cost, while the ledger counts all runs. So once
such a head exists nothing of positive cost fits its pool, until enough runs complete.

## Where the code and its documentation differ

The model follows the code.

- `docs/COST-SCHEDULER.md:298-303` has cheap jobs packed around an expensive head. In the code a request that
  fits the leftover budget may be admitted if and only if the head of its pool is not blocked by budget alone
  (`PackingExactly`); `LeftoverStaysIdle` is a run after which a waiter that fits the leftover is held back.
- `docs/COST-SCHEDULER.md:336-337` has no job starve. A budget-blocked head is served within as many completions
  as its pool has runs (`ReservedHeadIsServed`), and a head at its cap is admitted or reserved for at the next
  completion of its own model (`CapFullUntilCompletion`). A head shut out by the exclusive mutex is served by
  exactly the completion that empties its pool (`HandOffExactly`; over a run, `ShutOutHeadIsServed`), which comes
  within as many completions as the pool has runs unless somebody is admitted ahead of it. That happens exactly if
  the head is cap-full or shut out and another waiter of its pool fits the remaining budget (`OvertakenExactly`). So
  where two runs of the resident member fit side by side the pool need never be empty: for every n there is a run in
  which the head stays queued while n later arrivals are admitted and end, however high its priority and its age
  (`MutexStarves`, `TopPriorityStarves`).
- `docs/COST-SCHEDULER.md:185-187` has `leave_room` always leave room for one more base-cost run. It does so
  exactly if the base cost is at most half of budget plus epsilon and the cap has a second slot
  (`LeaveRoomExactly`); `LeaveRoomCanFail` is an input on which it does not.
- `docs/COST-SCHEDULER.md:188` lets `full_pool` charge the whole budget. The code charges the budget less one
  epsilon exactly if base <= B - EPS <= base * weight, and the whole budget only if that is the base cost
  (`FullPoolExactly`, `FullPoolFallsShort`); beside such a run only a request of at most two epsilons fits
  (`AloneButForEpsilon`).
- `overlaat/queue_proxy.py:580-583` calls cap times cost times the heaviest weight, summed over the members, the
  tight bound for a budget that never binds. It is sound (`UnboundedIsRoomy`, `UnboundedNeverReserves`) but not tight
  (`WarningNotTight`), since `leave_room` and `full_pool` clamp the charge and an exclusive pool runs one member at a
  time. The exact bound is `Roomy` (`BindsExactly`); the two agree where nothing is clamped and no mutex applies
  (`WarningExactUnclamped`).
- `overlaat/breaker.py:236-246` advertises a wait after which to retry. A caller that waits that long is still
  blocked if somebody else took the probe meanwhile (`RetryAfterCanFail`), or if that probe has failed
  (`ProbeReportDecides`). `RetryAfterExactly` gives the exact condition, for whatever was asked and reported
  meanwhile.
- `docs/COST-SCHEDULER.md:156` has every read-timeout count against the breaker. One counts exactly if it comes
  before the response headers or after a status of at least 400 (`TimeoutCounts`). A stream that breaks off after
  a status below 400 ends as `client_abandoned` (`StalledStream` is such a run), and any number of them leave the
  breaker closed (`StalledStreamsNeverTrip`).

## Model

| member | source | states |
|---|---|---|
| SchedulerImpl.Waiter.constructor | overlaat/scheduler.py:71-114 | a new waiter is unresolved, not cancelled, and carries no marks |
| SchedulerImpl.Waiter.Resolve | overlaat/scheduler.py:458-478 | labels the waiter and resolves its future once; a resolved future keeps its result |
| SchedulerImpl.Scheduler.constructor | overlaat/scheduler.py:131-203 | an empty scheduler: no ledger entries, no waiters, no reservations |
| SchedulerImpl.Scheduler.TestsAgree | overlaat/scheduler.py:244-262 | residency, cap, mutex and budget tests on the object's fields decide as on the abstract state |
| SchedulerImpl.SortByRequest | overlaat/scheduler.py:534-537 | ordering the waiter objects orders their requests by (-effective priority, arrival), stably |
| SchedulerImpl.Scheduler.PoolHead | overlaat/scheduler.py:480-485 | finds the first waiter of the pool in the global order, or nothing if the pool has none |
| SchedulerImpl.Scheduler.ReserveHeads | overlaat/scheduler.py:539-575 | after the loop over pools in any order, exactly the budget-blocked heads are reserved, marks of holders and displaced holders are right, and each pool's reservable budget is known |
| SchedulerImpl.Scheduler.FirstFitting | overlaat/scheduler.py:577-583 | picks the first waiter in the global order that fits what its own pool is worth in this pass |
| SchedulerImpl.Scheduler.RecordWaitReasons | overlaat/scheduler.py:623-646 | marks everyone still waiting with its live cause in place and resolves nobody |
| SchedulerImpl.Scheduler.Admit | overlaat/scheduler.py:469-478 | charges the pool, counts the run, removes the waiter, clears its reservation, and resolves its future true with the reason |
| SchedulerImpl.Scheduler.Pump | overlaat/scheduler.py:487-594 | the loop ends in the state and with the admissions of the model's fixed point, and whoever left the list was resolved true for a logged reason |
| SchedulerImpl.Scheduler.Enqueue | overlaat/scheduler.py:352-373 | appends and pumps, or resolves false a waiter that can never fit and changes nothing else |
| SchedulerImpl.Scheduler.Withdraw | overlaat/scheduler.py:375-388 | removes an unadmitted waiter and its reservation and pumps; its future stays unresolved; a no-op on the state but for the pump when it is not queued |
| SchedulerImpl.Scheduler.Release | overlaat/scheduler.py:390-414 | refunds the given cost, or the base cost without one, and pumps |
| SchedulerModel.FirstFit | overlaat/scheduler.py:577-583 | whoever is picked waits and may be admitted; if nobody is picked, no waiter may be |
| SchedulerPump.PumpSettles | overlaat/scheduler.py:487-594 | the admit loop ends in a fixed point: pumping again at once changes neither marks nor reservations nor admits |
| SchedulerPump.AgreeAdmittable | overlaat/scheduler.py:539-583 | whether a waiter may be admitted depends only on what is in its own pool |
| SchedulerPump.ReserveFor | overlaat/scheduler.py:539-575 | after the reservation step a pool is reserved for its head exactly if budget alone blocks it, and for nobody otherwise |
| SchedulerProgress.SettledAtRest | overlaat/scheduler.py:527-594 | in a settled state a pool is reserved exactly for a budget-blocked head, and then nothing of positive cost fits it; otherwise every waiter is cap-full, shut out, or over the remaining budget |
| SchedulerProgress.AtRestSettled | overlaat/scheduler.py:527-594 | conversely, with every pool at rest and the marks up to date the loop has nothing to do |
| SchedulerProgress.OvertakesOnlyIfHeadStuck | overlaat/scheduler.py:545-594 | a waiter is admitted ahead of its pool's head only if the head is cap-full or shut out by the mutex |
| SchedulerProgress.NoDeadlock | overlaat/scheduler.py:352-373 | after any operation of any run, a pool with waiters has something in flight |
| SchedulerProgress.ReservedHeadIsServed | overlaat/scheduler.py:539-594 | while a reserved head keeps its place, nobody of its pool is admitted before it, and it is admitted by the n-th completion in a pool with n runs |
| SchedulerProgress.PumpSeenFromHead | overlaat/scheduler.py:487-594 | while a free head is over budget the loop admits nobody of its pool; when it fits, it is admitted before anybody else of its pool |
| SchedulerStarvation.PackingExactly | overlaat/scheduler.py:539-583 | in any state, a request that fits what the running ones leave may be admitted if and only if its pool's head is not blocked by budget alone |
| SchedulerStarvation.LeftoverStaysIdle | overlaat/scheduler.py:539-583 | a concrete run after which a waiter that fits the leftover budget is held back by a reserved head |
| SchedulerStarvation.OvertakenExactly | overlaat/scheduler.py:500-507 | a whole pump admits somebody of a pool ahead of its head if and only if the head is cap-full or shut out and some waiter of the pool fits the remaining budget |
| SchedulerStarvation.CapFullUntilCompletion | overlaat/scheduler.py:487-594 | at the next completion of its own model a head stuck at its cap is admitted before anybody else of its pool, or reserved for |
| SchedulerStarvation.HandOffExactly | overlaat/scheduler.py:393-397 | an operation admits a head that the mutex shut out if and only if it completes the last run in flight in its pool, then before anybody else of the pool; otherwise the head stays shut out |
| SchedulerStarvation.ShutOutHeadIsServed | overlaat/scheduler.py:393-397 | over any run in which it keeps its place, a shut-out head is admitted if and only if its pool is emptied, and by the n-th completion in a pool of n runs somebody of the pool has been admitted, either the head or one ahead of it |
| SchedulerStarvation.MutexStarves | overlaat/scheduler.py:418-430 | for every n, a legal run of n rounds in which a head shut out by the mutex stays the queued head while n requests of another member are admitted on arrival and n of them end |
| SchedulerStarvation.MutexStarvesFromStart | overlaat/scheduler.py:418-430 | such runs begin at the empty scheduler, in every configuration where two runs of the other member fit and the head has at least their priority |
| SchedulerStarvation.TopPriorityStarves | overlaat/scheduler.py:418-430 | a concrete one: priority 1000 against 0, with aging on |
| SchedulerOrder.RepumpIsIdle | overlaat/scheduler.py:338-348 | time alone changes nothing: pumping a settled scheduler at any later time admits nobody and keeps every mark and reservation |
| SchedulerOrder.AgingBoundsOvertaking | overlaat/scheduler.py:338-348 | once a waiter has waited (bound - priority) / rate, no arrival of clamped priority up to the bound, in any pool, orders before it, now or later, nor heads its pool |
| SchedulerOrder.AdmittedIsFirst | overlaat/scheduler.py:534-583 | whoever is admitted has, of all waiters that might be, the highest effective priority, the earliest arrival breaking ties |
| SchedulerOrder.HeadIsFirst | overlaat/scheduler.py:480-485 | a pool's head comes before every other waiter of the pool in that order |
| SchedulerOrder.WorthAtArrival | overlaat/scheduler.py:317-348 | at arrival a request is worth its claim or its key's ceiling, whichever is lower; a key without ceiling has the default priority for one, and without ceilings the claim counts |
| SchedulerOrder.CeilingBinds | overlaat/scheduler.py:317-348 | a claimed priority is worth no more than its key's ceiling, a claim above it gains nothing, one below it counts in full |
| SchedulerRuns.EveryRunIsGood | overlaat/scheduler.py:390-478 | over every run the ledger of a pool is the sum of the charged costs in flight and at most its budget plus epsilon, in-flight counts are exact and within the caps, an exclusive pool has one active member, and the state is settled |
| SchedulerRuns.PumpSafe | overlaat/scheduler.py:487-594 | however many the loop admits, it keeps the ledgers exact and every bound |
| SchedulerRuns.OneActiveMember | overlaat/scheduler.py:418-430 | a request that the mutex lets through shares its exclusive pool only with its own model |
| SchedulerRuns.RefundStopsAtZero | overlaat/scheduler.py:411-413 | whatever is released, ledger and count go down by cost and one, and stop at zero |
| SchedulerRuns.ReleaseAtBaseCost | overlaat/scheduler.py:408-411 | a release without a cost completes a run that was charged at base cost |
| SchedulerRuns.LeavesNoReservation | overlaat/scheduler.py:384-387 | whoever is withdrawn or admitted takes its own reservation along; every other one stays |
| SchedulerRuns.ReleaseClampsInert | overlaat/scheduler.py:410-414 | the two clamps to zero never take effect on the release of an in-flight run |
| SchedulerPools.PoolsDoNotInterfere | overlaat/scheduler.py:487-594 | the projection of any run onto a pool - ledger, counts, waiters with marks, reservation, runs, admissions with reasons - is the run of a scheduler fed only that pool's events |
| SchedulerPools.StepOther | overlaat/scheduler.py:493-496 | an operation on another pool never changes a pool and admits nobody of it |
| SchedulerPools.PoolAdmissionsFromStart | overlaat/scheduler.py:487-594 | from an empty scheduler, a pool's admissions are those of its own events alone |
| SchedulerLabels.StepLabels | overlaat/scheduler.py:598-646 | admitted with "none" exactly inside its own enqueue call, with "reserved" exactly if it was the reserved head just before the operation; queued waiters are marked exactly if they hold the reservation |
| SchedulerLabels.ReasonsAreTrue | overlaat/scheduler.py:598-646 | every label exactly: "none" for the arrival itself, else "reserved" for the holder, else "aged_in" if it waited with aging on, else what stood against it in the settled state just before: cap, mutex or budget |
| SchedulerLabels.QueuedLabels | overlaat/scheduler.py:623-646 | between operations every queued waiter shows "reserved" if it holds its pool's reservation, else "model_cap" if its model has as many runs in flight as its cap, else "exclusive" if its exclusive pool is busy with another model, else "budget_full"; the last one only if it is over the remaining budget or the pool is reserved |
| SchedulerLabels.QueuedLabelsOverRuns | overlaat/scheduler.py:623-646 | the same after every run from the empty scheduler |
| SchedulerLabels.LabelsOverRuns | overlaat/scheduler.py:551-570 | the marks stay truthful over every run |
| SchedulerFifo.FifoRefinement | overlaat/scheduler.py:487-594 | with one model of cap c at cost 1/c and equal priorities, any run admits the same waiters in the same order as a first-in first-out semaphore of c permits, and leaves the same ones waiting |
| SchedulerFifo.FifoFromStart | overlaat/scheduler.py:268-284 | the same from an empty scheduler against c free permits |
| ProxyConfig.ResolvePoolConfig | overlaat/queue_proxy.py:465-547 | the two loops compute the merged tables, or all models that make the configuration invalid |
| ProxyConfig.ResolvedTables | overlaat/queue_proxy.py:494-547 | a pool is exclusive exactly if declared or seeded so; exactly the default pool and the declared, exclusive and referred-to pools have a budget, the declared or the default one; the configuration is refused exactly if some model's declared or implied cost exceeds its pool's budget, with all such models |
| ProxyConfig.CheckDischargesGuard | overlaat/queue_proxy.py:515-547 | the check passes exactly if no request for a model with a cap or an explicit cost can be rejected by `enqueue`, at any prompt weight |
| ProxyConfig.UndeclaredModels | overlaat/scheduler.py:268-313 | a model with neither is admittable exactly if the default cost fits its pool |
| ProxyConfig.WeightedCostBounds | overlaat/scheduler.py:286-313 | for weights of at least one the charged cost lies between base and base times weight |
| ProxyConfig.LeaveRoomExactly | overlaat/scheduler.py:297-313 | under `leave_room`, beside a lone weighted run one more base-cost run of its model passes the admission test exactly if the base cost is at most half of budget plus epsilon and the cap is not one |
| ProxyConfig.LeaveRoomCanFail | overlaat/scheduler.py:297-313 | a model without cap, at base cost 0.6 of a unit budget, whose second run the budget alone keeps out |
| ProxyConfig.FullPoolExactly | overlaat/scheduler.py:286-313 | under `full_pool` a weight above one is charged the budget less epsilon exactly if base <= B - EPS <= base * weight, and the whole budget exactly if that is the base cost |
| ProxyConfig.FullPoolFallsShort | overlaat/scheduler.py:286-313 | a weighted run that is charged less than the whole budget |
| ProxyConfig.AloneButForEpsilon | overlaat/scheduler.py:299-313 | beside a lone run charged the budget less epsilon, what neither cap nor mutex stops fits exactly if it costs at most two epsilons |
| ProxyConfig.PromptWeight | overlaat/queue_proxy.py:455-462 | the loop finds the weight that the next three rows describe |
| ProxyConfig.WeightAt | overlaat/queue_proxy.py:455-462 | in a table of ascending bounds a prompt has the multiplier of the tier it falls in, bounds included |
| ProxyConfig.FirstTierDecides | overlaat/queue_proxy.py:455-462 | in any table the first tier whose bound the prompt does not exceed decides, the last one if it exceeds all; without a table the weight is one |
| ProxyConfig.WeightGrowsWithPrompt | overlaat/queue_proxy.py:455-462 | where multipliers ascend with the bounds, a larger prompt weighs no less |
| ProxyConfig.IsUnbounded | overlaat/queue_proxy.py:602-616 | the loop finds exactly the pools whose members all have caps and whose budget covers every cap at the heaviest weight |
| ProxyConfig.InertPools | overlaat/queue_proxy.py:589-619 | reports exactly the pools with a model that has a cap, a cost or an assignment, all of them if no multiplier exceeds one, otherwise the unbounded ones |
| SelfProtection.UnboundedNeverBinds | overlaat/queue_proxy.py:571-617 | in a pool judged unbounded the budget test never fails for a request with a free cap slot, in any safe state, also in the middle of an operation |
| SelfProtection.UnboundedNeverReserves | overlaat/queue_proxy.py:571-617 | over any run, in every pass of every operation, no head of such a pool is blocked by budget and nothing is reserved for one |
| SelfProtection.UnboundedIsRoomy | overlaat/queue_proxy.py:579-583 | a pool that the check calls unbounded meets the exact bound too |
| SelfProtection.RoomyNeverBinds | overlaat/queue_proxy.py:571-583 | under the exact bound the budget test never fails for a request that neither cap nor mutex stops, in any safe state |
| BudgetBinds.BindsExactly | overlaat/queue_proxy.py:571-583 | no run ever finds a head of the pool blocked by budget if and only if its members have caps and what may run together, each at its cap and its heaviest clamped charge, fits the budget |
| BudgetBinds.WarningExactUnclamped | overlaat/queue_proxy.py:579-617 | the check's sum is that exact bound if no heaviest charge is clamped and the pool is not exclusive |
| BudgetBinds.WarningNotTight | overlaat/queue_proxy.py:579-583 | a pool that is not called unbounded although its budget never binds |
| LifecycleProofs.ExactlyOnce | overlaat/queue_proxy.py:1195-1241 | over every interleaving each ended request has emitted exactly one event, each granted and ended one has been released exactly once at its charged cost, and no other request has been reported or released |
| LifecycleProofs.NothingLeaks | overlaat/queue_proxy.py:1562-1645 | when every request has ended, every ledger, in-flight count and queue depth is zero, in the scheduler and in the metrics |
| LifecycleProofs.EveryRunKeeps | overlaat/queue_proxy.py:1505-1645 | the scheduler's waiters and runs are exactly the parked and the granted unfinished requests, flags fit phases, meters count phases, over every interleaving |
| LifecycleProofs.ProxyRunsTheScheduler | overlaat/queue_proxy.py:1562-1629 | the proxy only makes scheduler calls that callers may make, so its scheduler goes through a legal run |
| LifecycleProofs.RecordedCurveUnderCap | overlaat/queue_proxy.py:1624-1637 | at every instant at most cap of a capped model's recorded [t_acquire, t_done) windows are open, so no window's mean concurrency exceeds the cap |
| LifecycleProofs.RecordedIntegral | overlaat/metrics_db.py:445-451 | the sweep-line integral built from those events reads at most the cap over every window |
| LifecycleRecords.EveryRecordIsTrue | overlaat/queue_proxy.py:1198-1234 | over every run the served and errored counters are what the event log counts; a recorded run arrived, took its slot and ended in that order, outcomes fit statuses, and only requests that can never fit are recorded as unadmittable |
| LifecycleRecords.StepsLogRightly | overlaat/queue_proxy.py:1216-1294 | after any run, what each step logs: who is turned away or leaves the queue logs why; a failed send 599 and an upstream error; the end of a stream its status, and an upstream error from 400 up, else a completion if it ended naturally, else an abandonment; nothing else logs anything |
| LifecycleRecords.CancelWins | overlaat/queue_proxy.py:1562-1622 | a cancel that reaches a parked request is what it is logged with when it wakes, whatever happens in between, its own admission included, unless it was rejected on arrival |
| LifecycleRecords.CancelledWereAsked | overlaat/queue_proxy.py:1140-1155 | over every run only requests whose cancellation was asked for are logged as cancelled |
| LifecycleRecords.CurvesFromLog | overlaat/metrics_db.py:346-353 | after any run the active curve is drawn from the slot windows of all recorded runs, as many as were counted, and the offered one from the windows of all events |
| LifecycleRecords.RecordedActiveBelowOffered | overlaat/metrics_db.py:347-353 | in every window a model's recorded active curve stays below its offered curve |
| LifecycleProofs.WaitsBehindWork | overlaat/queue_proxy.py:1562-1567 | while a request is parked unresolved, another request of its pool is granted and not ended |
| SchedulerRuns.PumpMoves | overlaat/scheduler.py:469-478 | the admit loop moves waiters to the admissions and loses nobody |
| ProxyImpl.Proxy.ArriveCall | overlaat/queue_proxy.py:1376-1450 | turns an oversized or unhealthy request away with one event and no charge, or registers it, counts it and enqueues it |
| ProxyImpl.Proxy.CancelAsk | overlaat/queue_proxy.py:1140-1155 | resolves the cancel future of a queued request and touches no other |
| ProxyImpl.Proxy.Wake | overlaat/queue_proxy.py:1563-1645 | leaves the queue and takes the branch of the two futures: withdraw, rejected, give the admission back, or go into service |
| ProxyImpl.Proxy.SendFailed | overlaat/queue_proxy.py:1236-1241 | releases the slot as errored and reports an upstream error, each once |
| ProxyImpl.Proxy.HeadersArrived | overlaat/queue_proxy.py:1243-1258 | the request streams under the upstream's status and nothing else changes |
| ProxyImpl.Proxy.StreamEnded | overlaat/queue_proxy.py:1286-1294 | releases the slot under the upstream's status and reports completed, upstream error or abandoned, each once |
| ProxyImpl.Proxy.ReleaseSlot | overlaat/queue_proxy.py:1198-1214 | gives the charged cost back and moves the meters of the model, unless the flag says it was done |
| ProxyImpl.Proxy.FinishCall | overlaat/queue_proxy.py:1216-1234 | emits the event with the times and the outcome, unless the flag says it was done |
| Concurrency.MeanConcurrency | overlaat/metrics_db.py:77-88 | the accumulating loop computes the overlap sum over the window's length, zero for an empty window |
| Concurrency.ConcIntegral.constructor | overlaat/metrics_db.py:100-120 | sorting, grouping equal breakpoints and running sums tabulate the step function and its prefix integral |
| Concurrency.ConcIntegral.Mean | overlaat/metrics_db.py:122-134 | for every interval list, degenerate ones included, and all a, b, the bisected value equals the naive mean concurrency |
| Concurrency.IntegralAtMost | overlaat/metrics_db.py:122-134 | the integral of any intervals of which at most c are open at every instant reads at most c over every window |
| Concurrency.LevelIsActive | overlaat/metrics_db.py:94-97 | the step function counts the intervals open at each instant |
| Concurrency.AreaIsOverlap | overlaat/metrics_db.py:94-98 | its integral over a window is the sum of the intervals' overlaps with it |
| Concurrency.MeanOfSpanning | overlaat/metrics_db.py:77-88 | over a window that n intervals span, the mean concurrency is n; over an empty window it is zero |
| Concurrency.MeanAtMost | overlaat/metrics_db.py:77-88 | if at most c intervals are open at every instant, no window's mean exceeds c |
| Buckets.BucketConcurrency | overlaat/metrics_db.py:137-155 | each bucket is the naive mean concurrency over exactly that bucket |
| Buckets.BucketWeighted | overlaat/metrics_db.py:158-198 | each bucket holds, as an average rate, the share of every interval's total that falls into it; skipped intervals contribute nothing |
| Buckets.BucketsConserve | overlaat/metrics_db.py:158-198 | bucket values times width add up to every total's share inside the window |
| Buckets.WholeShare | overlaat/metrics_db.py:164-198 | an interval inside the window contributes its whole total, nothing if that is unknown |
| Buckets.ProportionalShare | overlaat/metrics_db.py:158-198 | in any window the share of a total is in proportion to the time; an interval without a total or a duration contributes nothing |
| Buckets.DurationShareIsOverlap | overlaat/metrics_db.py:164-170 | when each total is the interval's own duration the weighted series is mean concurrency |
| Buckets.GroupByModel | overlaat/metrics_db.py:343-358 | the grouping loop files each window under its model, in event order, and loses none |
| Buckets.TopAndOtherAreTotal | overlaat/metrics_db.py:365-378 | wherever the ranking is cut, in every window the top series and the series of the rest add up to the total series |
| Buckets.SpansOfCalls | overlaat/metrics_db.py:348-353 | every call is offered from arrival to end, and active from its slot to its end if it had one |
| Buckets.ActiveBelowOffered | overlaat/metrics_db.py:348-353 | if slots are taken no earlier than requests arrive, the active curve never exceeds the offered one in any window |
| BreakerModel.StateFollowsHistory | overlaat/breaker.py:175-225 | from a fresh start a probe is in flight exactly in half-open, and while closed the counter is the length of the trailing run of upstream errors in all that was reported, below the limit |
| BreakerModel.TripsExactly | overlaat/breaker.py:217-225 | a closed breaker trips on a report exactly when it completes a run of `fails` errors |
| BreakerModel.ProbeRate | overlaat/breaker.py:152-171 | from a trip until the next close, the k-th request let through comes no earlier than k cooldowns after the trip, whatever is reported or lost meanwhile |
| BreakerModel.Recovers | overlaat/breaker.py:152-171 | after a cooldown without reports the next request is let through, from any reachable state |
| BreakerModel.RetryAfterIsTight | overlaat/breaker.py:236-246 | with nobody let through in between, coming back after the advertised wait succeeds and coming back more than a second early fails; late reports change nothing |
| BreakerModel.RetryAfterWhenOpen | overlaat/breaker.py:236-246 | a wait is advertised exactly while the open phase turns requests away, zero otherwise |
| BreakerModel.RetryAfterExactly | overlaat/breaker.py:236-246 | whatever was asked and reported since, a blocked caller that comes back is let through if and only if the state after the last counted outcome is closed, or a cooldown has passed since the last request let through after it, or, with none, since it opened |
| BreakerModel.RetryAfterWhileQuiet | overlaat/breaker.py:236-246 | without counted outcomes, the request after the advertised wait is let through if and only if nobody was let through less than a cooldown before it |
| BreakerModel.ProbeReportDecides | overlaat/breaker.py:203-213 | a failed probe blocks the caller although a cooldown has passed since it was let through, a completed one lets it through within one |
| BreakerModel.RetryAfterCanFail | overlaat/breaker.py:236-246 | a concrete trace in which the caller waits as advertised and is blocked |
| BreakerModel.NeutralOutcomesNeverTrip | overlaat/breaker.py:193-198 | outcomes other than completed and upstream error never move a closed breaker |
| LifecycleBreaker.ToldTheAttempts | overlaat/queue_proxy.py:1228-1236 | over every run the breaker of a model is told exactly the outcomes of that model's attempts in the event log, once each, in order, with nondecreasing times |
| LifecycleBreaker.BreakerFollowsLog | overlaat/breaker.py:175-225 | after every run the breaker is where the event log says: while closed it counts the attempts with an error status since the last completed one |
| LifecycleBreaker.TripsOnErrorStreak | overlaat/breaker.py:217-225 | over every run a closed breaker trips on exactly the step whose event completes a streak of `fails` attempts with status at least 400 |
| LifecycleBreaker.TimeoutCounts | overlaat/breaker.py:184-189 | after every run, an attempt that breaks off is reported as an upstream error if and only if it did so before the headers or after a status of at least 400, otherwise as an abandonment |
| LifecycleBreaker.SuccessIsTold | overlaat/breaker.py:184-198 | after any run, a step reports "completed" for a model exactly if a stream of it with a status below 400 comes to its natural end |
| LifecycleBreaker.ErrorsAreStatuses | overlaat/queue_proxy.py:1236-1294 | over every run an attempt feeds the breaker an upstream error if and only if its status is at least 400 |
| LifecycleBreaker.StalledStreamsNeverTrip | overlaat/breaker.py:184-198 | as long as no attempt of a model ends with an error status its breaker stays closed, however many streams break off |
| LifecycleBreaker.StalledStream | overlaat/queue_proxy.py:1286-1294 | a concrete run in which a stream stalls after status 200: it is logged as abandoned and a breaker that trips on one error stays closed |
| LifecycleBreaker.ServedRuns | overlaat/queue_proxy.py:1236-1294 | at any point of any run, in every configuration with positive caps, an admittable request that finds the proxy idle is granted at once, and adds one event with its headers' status: an upstream error from 400 up, else completed or abandoned by the way its stream ends |
| LifecycleBreaker.LetInAreGrants | overlaat/queue_proxy.py:1406-1437 | in a run guarded by the breaker, the requests let in are exactly those it lets through |
| LifecycleBreaker.ShieldsTheBackend | overlaat/breaker.py:135-171 | in such a run, from a trip until the next close the k-th request of the model is let in no earlier than k cooldowns after the trip |
| CircuitBreaker.Breaker.constructor | overlaat/breaker.py:89-121 | exactly the entries whose limit is a positive whole number and whose cooldown is a positive number gate their model, with those values |
| CircuitBreaker.Breaker.Allow | overlaat/breaker.py:135-171 | answers and moves one model's state as the machine does; other and ungated models are untouched |
| CircuitBreaker.Breaker.Record | overlaat/breaker.py:175-225 | feeds one outcome to one model's state; other and ungated models are untouched |
| CircuitBreaker.Breaker.RetryAfterSeconds | overlaat/breaker.py:236-246 | the remaining cooldown rounded up while open, else zero; nothing observable changes |
| CircuitBreaker.Breaker.State | overlaat/breaker.py:229-234 | the phase, closed for an ungated model; nothing observable changes |

## Left out

- Floating point: costs, priorities and times are exact reals; the epsilon of the source is kept where the source has it.
- Clocks: the source stamps events with the wall clock and schedules with the monotonic one; here one nondecreasing clock serves both and is a parameter of every step.
- Key ceilings are a function fixed over a run; a refresh in mid-run may reorder waiters, and the order and isolation theorems do not claim anything then.
- Identity: a request value with a unique id stands for its waiter object; the source compares waiters with their futures.
- Assumptions on callers, stated as `Enabled` and `Possible`: costs are positive, a waiter is enqueued once, only an in-flight run is released, and at its charged cost.
- NoDeadlock: assumes caps of at least one; under a cap of zero a waiter of that model is never admitted. The same holds for ReservedHeadIsServed, HandOffExactly, ShutOutHeadIsServed and WaitsBehindWork.
- FifoRefinement: assumes an aging rate that is not negative; with a negative one later arrivals overtake.
- BindsExactly: assumes that the pool has members, with positive caps and costs, and passes the never-admit check; any weight of the tier table may come with any request.
- RecordedCurveUnderCap: assumes that the cap is not negative.
- Cancellation of a handler task at an `await`, a response generator that is never started and an `aclose` that raises: a handler here reaches one of the code's own ends.
- Draining an upstream after a client left (`overlaat/queue_proxy.py:1270-1285`) only delays the end of the stream, which may come at any time here.
- The lifecycle takes the size ceiling's and the breaker's verdicts as inputs of a step; `Guarded` singles out the runs in which the second one is the breaker's. It follows one model's breaker at a time, since the breaker object keeps models apart.
- The scheduler-off path with its semaphore: the semaphore is a library, used here only as the target of `FifoRefinement`.
- Event fields other than times, status and outcome, response bodies, wait-time buffers and log lines.
- The order of lists built for messages (`sorted` offenders and inert pools): these are sets here, and parsing of the configuration files is not part of this model.
- Rounding of series for display, host samples, and the ranking of keys by active seconds, which partitions the same way as the ranking of models.
- `overlaat/host_logger.py`, `overlaat/db.py`, `overlaat/usage_api.py`, prompt-size estimation, workload labels, percentiles, the event writer, snapshots and the HTTP plumbing: input, output and small members.
