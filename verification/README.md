# Verified model of the embedding gateway

The gateway sits in front of a pool of embedding backends. It admits requests through a
priority queue, meters them against rate limits and prepaid token budgets, and shows
operators a live dashboard. This project models the parts whose correctness depends on
many steps interleaving, and proves what they promise for every run.

Check it with `dafny verify dfyconfig.toml` (Dafny 4.11).

## What is modelled

**The admission queue.** `AdmissionCore` holds the waiting lists and the selection rule;
`AdmissionProtocol` is the queue as a state machine in which every section under the mutex
is one event, so that arrivals, wake-ups, cancellations that race a grant, releases and
repeated releases interleave freely. `AdmissionHistory` and `WaitBounds` prove whole-run
properties: first come first served within a class, alternation of promotions, and two wait
bounds with explicit decreasing measures. `AdmissionQueue` is the queue as the program
keeps it, a class with mutable lists, counters and watcher channels; each method's contract
names the event of the state machine it was, and keeps every page watching through a channel
in step with it. `AdmissionStats` is the snapshot the dashboard
reads. Map iteration order makes ties between equally old heads nondeterministic, so the
rule allows any oldest head.

**The dashboard's repaint loop.** `RepaintLoop` puts the loop's variables, its cooldown
timer and the one-deep change channel beside the queue's state machine, which may move
between any two of the loop's steps, and proves that no change of slots or class depths
is lost, that a stale screen catches up on every schedule, and that over every run the
program's loop has the variables of that model.

**The live read side.** `HubRegistry` is the registry of per-key actors, `SnapshotDelivery`
the delivery of snapshots with its channel operations as separate steps, and `ReadModel`
the figures an actor keeps next to the store, with the exact account of how far they may
differ; `Resync` says what a reload mends and what it leaves, with traffic between its
queries. `LiveHub` is the hub, its actors and the recorder as classes.

**Accounting and limits.** `Calendar` and `UsageReport` are the reporting windows over a
proleptic Gregorian calendar; `Budget` and `BudgetOvershoot` the budget check, the meter on
screen and the concurrent runs that overshoot; `RateLimiter` the fixed-window limiter with
its full log of calls; `KeyLimits` the validation of limits; `EmbeddingInputs` the streaming
count of a request's inputs against the meaning of its JSON value. `EmbeddingsHandler` is one
request from end to end through those gates, and shows that its effects are the steps the
model of concurrent requests gives it; `RequestStories` shows that the model lets no request do
anything else. `ForwardingBound` runs the requests of all keys together with the queue: no more
of them than the capacity are ever being forwarded at once.

Instants are whole nanoseconds since the zero time. The clock of each state machine never
goes back. Numbers stand for the identity of calls, channels and actors.

## Where the code and its comments differ

- `internal/domain/usage/usage.go:30-33` and `internal/live/actor.go:63-65` call the first three
  windows nested. The week is inside the month exactly when more days of the month have begun
  than days have passed since Monday (`UsageReport.WeekNestsInMonthExactly`); 1 July 2026 is a
  day on which it is not (`UsageReport.WeekCanStartBeforeTheMonth`).
- `internal/live/actor.go:72-73` calls a resync an authoritative refresh. It can itself leave
  a difference until the next one, and `Resync.DifferenceKnownBeforehand` says exactly which.
  Once the credits that were on their way when a load began have been applied, the figures are
  too high by exactly the tokens of those events, since the load counted them too
  (`Resync.EqualAfterResyncExactly`; `Resync.LoadBetweenWriteAndPublishCountsTwice` is an
  instance, reached by `Resync.LoadBetweenWriteAndPublishCanHappen`). And since queries are half open, an event stamped at the very instant of the load
  whose credit was settled by then stays out of the figures until the next load
  (`Resync.TieIsMissedUntilTheNextLoad`, `Resync.ShortByTiesExactly`; `Resync.TieCanHappen` has
  a run that leads there).
- `internal/queue/queue.go:75-77` says a watcher is signalled whenever a request is
  admitted. A parked call that wakes moves the counters at
  `internal/queue/queue.go:165-170` without a signal; slots and class depths do not change
  there (`RepaintLoop.QuietEventsKeepTheFrame`), and the freshness result is about those. That
  wake is the only change without a signal (`RepaintLoop.OnlyWakesGoUnsignalled`).

## Model

| member | source | states |
|---|---|---|
| AdmissionCore.PushKeeps | internal/queue/queue.go:220-228 | parking a request numbered and timed after those queued keeps every class non-empty, keyed by its own priority and sorted by arrival, and adds exactly that request |
| AdmissionCore.RemoveKeeps | internal/queue/queue.go:231-241 | unlinking a queued request keeps the lists well formed, deletes an emptied class, and takes out exactly that request |
| AdmissionCore.RemoveTakesOne | internal/queue/queue.go:231-241 | after a removal a request is queued exactly if it was and is not the one removed |
| AdmissionCore.TopHeadIsFirstByRank | internal/queue/queue.go:252-258 | the head of the highest class is exactly the first of all waiters by class and arrival |
| AdmissionCore.OldestHeadIsFirstByAge | internal/queue/queue.go:259-261 | a head with minimal arrival time is exactly a globally oldest waiter that is first in its own class |
| AdmissionCore.HeadsSuffice | internal/queue/queue.go:243-284 | looking only at class heads allows exactly the grants a scan of every waiter would allow; what those grants are is the next row |
| AdmissionCore.PromotionsAreEarned | internal/queue/queue.go:266-283 | a grant is allowed as a promotion if and only if it goes to a longest-waiting request that is not first by rank and has waited out the window, the grant before being no promotion; any other grant is allowed if and only if it goes to the first by rank and, unless the grant before was a promotion, some longest-waiting request is that one or has not waited so long |
| AdmissionCore.SomeGrantIsAllowed | internal/queue/queue.go:250-284 | while anybody waits the rule always has a grant to make |
| AdmissionCore.PickIsHead | internal/queue/queue.go:250-284 | whatever grant the rule allows goes to a queued request that heads its class |
| AdmissionProtocol.StepKeepsMatch | internal/queue/queue.go:145-241 | every event keeps the lists in agreement with the calls: a call is in a list, once, exactly while it is parked, and `waiting` is the sum of the class lengths |
| AdmissionProtocol.StepConservesSlots | internal/queue/queue.go:145-216 | every event keeps free + holding + granted-not-woken equal to the capacity, and leaves no slot free while somebody is queued |
| AdmissionProtocol.ReachableStatesAreSound | internal/queue/queue.go:145-241 | both invariants hold in every state reachable from an empty queue, through cancellations that race a grant and repeated releases |
| AdmissionProtocol.InFlightNeverExceedsCapacity | internal/queue/queue.go:41-51 | in no run do more calls than the capacity hold a slot at once |
| AdmissionProtocol.ArrivalsNeverBarge | internal/queue/queue.go:147-161 | while any request is queued an arriving one is parked behind its class, never admitted |
| AdmissionProtocol.CountOfUpdate | internal/queue/queue.go:145-203 | moving one call to another phase moves the number of calls in each phase by exactly one where it applies |
| AdmissionProtocol.EmptyIffNobodyWaits | internal/queue/queue.go:147-150 | the waiting count is zero exactly when there is no class, so the fast path's test means nobody is queued |
| AdmissionHistory.GrantsFollowArrivals | internal/queue/queue.go:218-284 | in every run and class, the grants followed by those still waiting are the arrivals of that class in order, with those that gave up taken out |
| AdmissionHistory.PromotionsAlternate | internal/queue/queue.go:263-284 | no two consecutive grants are promotions, in every prefix promotions exceed strict grants by at most one, and the counter never exceeds promotions granted |
| AdmissionHistory.AlternationBoundsPromotions | internal/queue/queue.go:58-63 | any alternating sequence of grants holds at most half promotions, plus one if it ends with one |
| AdmissionHistory.EveryCallIsCountedOnce | internal/queue/queue.go:150-188 | every call ever made is admitted, cancelled, waiting or granted-not-woken, and the counters say how many of each |
| AdmissionHistory.StepKeepsFifo | internal/queue/queue.go:145-284 | each event keeps grants + waiting list equal to arrivals without those that gave up, for all classes at once |
| AdmissionHistory.StepKeepsGrantLog | internal/queue/queue.go:276-283 | each event keeps the log of grants alternating and `justPromoted` equal to the kind of the last grant |
| AdmissionHistory.StepKeepsCounters | internal/queue/queue.go:150-188 | each event keeps the admitted, promoted and cancelled counters equal to the calls in those phases |
| AdmissionHistory.ReachableHistories | internal/queue/queue.go:145-284 | the three history invariants hold after every run |
| WaitBounds.NoStarvation | internal/queue/queue.go:250-284 | a request that has waited out the promotion window with o rivals by age has left the queue within 2o + 2 grants, whatever arrives later |
| WaitBounds.BoundedPriorityWait | internal/queue/queue.go:207-284 | a request with a waiters ranked ahead has left the queue within 2a + 2 grants if nothing strictly higher arrives, however deep and aged the backlog |
| WaitBounds.LeftMeansGrantedOrGaveUp | internal/queue/queue.go:163-188 | a request that has left the queue was granted a slot or gave up |
| WaitBounds.GrantsWereEarned | internal/queue/queue.go:158-284 | in every run each entry of the log of grants was made by a step, to a call parked by an earlier step; a promoted call had then waited at least the promotion window by the clock readings of those two steps, as long as anybody and not first by rank, right after no promotion; any other was first by rank |
| WaitBounds.WaitersWereParked | internal/queue/queue.go:158-160 | in every run whoever waits carries the clock reading of the step that parked it |
| WaitBounds.GrantLowersAgeMeasure | internal/queue/queue.go:266-283 | a grant to somebody else lowers 2 x older rivals + (1 if the last grant was a promotion) |
| WaitBounds.GrantLowersRankMeasure | internal/queue/queue.go:270-283 | a grant to somebody else lowers 2 x waiters ahead + (1 if the last grant was strict) |
| WaitBounds.AgedWaiterIsPassedOverBoundedly | internal/queue/queue.go:250-284 | over any run the age measure falls by at least the number of grants made while the aged request waits |
| WaitBounds.RankedWaiterIsPassedOverBoundedly | internal/queue/queue.go:250-284 | over any run without higher arrivals the rank measure falls by at least the number of grants made |
| AdmissionStats.HeadWaitsLongest | internal/queue/queue.go:328-333 | the wait of a class's head is the maximum over all waiters of that class |
| AdmissionStats.SortingKeepsRows | internal/queue/queue.go:335-336 | sorting makes the rows strictly descending by priority and keeps every row and the sum of their counts |
| AdmissionStats.RowsAreAReport | internal/queue/queue.go:314-338 | one sorted row per class is a report: rows descending, each with its class's count and longest wait, counts summing to the depth, the overall wait the maximum |
| AdmissionStats.DepthIsParkedCalls | internal/queue/queue.go:328-334 | the length of a class is the number of calls parked at that priority, and the class exists exactly if there are any |
| AdmissionQueue.Queue.constructor | internal/queue/queue.go:124-139 | a new queue is in the initial state of the protocol with every slot free |
| AdmissionQueue.Queue.NotifyLocked | internal/queue/queue.go:103-112 | the watchers are the same and every one of their one-deep channels holds a signal afterwards |
| AdmissionQueue.Queue.PushLocked | internal/queue/queue.go:220-228 | the waiter becomes the tail of its class, created on first use, and the count grows by one |
| AdmissionQueue.Queue.RemoveLocked | internal/queue/queue.go:231-241 | the waiter is unlinked from its class, which is deleted when empty |
| AdmissionQueue.Queue.PopLocked | internal/queue/queue.go:250-284 | from the candidates of the loop over class heads it picks a grant the rule allows, a promotion only after none and for a waiter that has waited out the window, unlinks it and records which it was; an empty queue yields nobody and leaves `justPromoted` alone |
| AdmissionQueue.Queue.Candidates | internal/queue/queue.go:251-262 | the loop finds the head of the highest class and a head nobody has waited longer than, or nobody exactly if there is no class |
| AdmissionQueue.Queue.ReleaseLocked | internal/queue/queue.go:207-216 | the slot goes to the picked waiter, or becomes free exactly when nobody waits, and the watchers are signalled |
| AdmissionQueue.Queue.Enter | internal/queue/queue.go:145-161 | the first section of Acquire is the protocol's fast admission or parking, whichever is enabled, keeps the object valid, and every page watching through a channel moves with it, signal included |
| AdmissionQueue.Queue.AdmitAtOnce | internal/queue/queue.go:150-155 | the fast path is the protocol's FastAdmit and signals the watchers |
| AdmissionQueue.Queue.ParkCall | internal/queue/queue.go:158-161 | the slow path is the protocol's Park and signals the watchers |
| AdmissionQueue.Queue.Wake | internal/queue/queue.go:164-171 | a woken call is the protocol's Wake, gets an unspent release, and leaves every watcher's signal as it was |
| AdmissionQueue.Queue.Cancel | internal/queue/queue.go:173-188 | a cancellation is the protocol's CancelGranted if the slot had been handed over and CancelParked otherwise, and every watching page gets its signal |
| AdmissionQueue.Queue.CancelGrantedCall | internal/queue/queue.go:176-182 | the raced slot is passed on by the rule, never lost |
| AdmissionQueue.Queue.CancelParkedCall | internal/queue/queue.go:184-187 | the waiter leaves its list and no slot moves |
| AdmissionQueue.Queue.Release | internal/queue/queue.go:194-203 | the first release is the protocol's Release and every watching page gets its signal, any later one is its ReleaseAgain, which changes nothing |
| AdmissionQueue.Queue.FirstRelease | internal/queue/queue.go:196-201 | spends the release and passes the slot on |
| AdmissionQueue.Queue.Watch | internal/queue/queue.go:83-92 | a new watcher's channel is empty, as for a page that has just opened |
| AdmissionQueue.Queue.Receive | internal/web/server.go:245-248 | receiving empties that channel and no other, as when the page receives a change |
| AdmissionQueue.Queue.Snapshot | internal/queue/queue.go:314-338 | the loop over classes yields a report of the protocol state: slots, depths, longest waits and counters; the strip's frame is read off it, slots in flight and one depth for each row |
| RepaintLoop.NoUpdateIsLost | internal/web/server.go:213-260 | whenever the loop waits, the screen shows the slots that calls take and for each class how many calls are parked in it, or a signal is pending, or a repaint is booked on the cooldown |
| RepaintLoop.FrameTells | internal/queue/queue.go:319-334 | the frame of a sound queue has the slots that calls take in flight, and at each priority exactly as many as are parked there, with no class left out |
| RepaintLoop.FrameIsReadOff | internal/web/view.go:219-256 | the frame is what any snapshot of the queue says: its slots in flight and one depth for each row |
| RepaintLoop.RepaintsKeepTheirDistance | internal/web/server.go:51-56 | any two change-driven repaints are at least 100 ms apart for each repaint between them |
| RepaintLoop.CooldownLastsATenthOfASecond | internal/web/server.go:51-56 | and the running cooldown ends exactly 100 ms after the last of them was out |
| RepaintLoop.EveryScheduleCatchesUp | internal/web/server.go:238-260 | from any reachable open page every run in which the queue rests and the page stays open shows the slots calls take and the calls parked in each class once it has made 15 moves, ticks and snapshots apart, and goes on showing them, in whatever order signals, expiries and heartbeats come |
| RepaintLoop.RestingStepCatchesUp | internal/web/server.go:238-260 | while the queue rests no step takes a current screen back, and every move of a stale one lowers its rank |
| RepaintLoop.MovingCatchesUp | internal/web/server.go:238-260 | a stale open page is never stuck: the loop, its timer or the clock can always make a step that brings it closer |
| RepaintLoop.StaleScreenCatchesUp | internal/web/server.go:238-260 | and some such schedule takes at most 16 steps |
| RepaintLoop.QuietEventsKeepTheFrame | internal/queue/queue.go:163-171 | the queue events that signal nobody leave slots and depths as they were |
| RepaintLoop.OnlyWakesGoUnsignalled | internal/queue/queue.go:145-203 | apart from the clock, an event changes the queue if and only if it signals the watchers or is the wake of a granted call, and a wake moves two counters and its own call's phase |
| RepaintLoop.StepKeepsCovered | internal/web/server.go:222-260 | every step of loop, timer or queue keeps the screen current or its repaint pending |
| RepaintLoop.StepKeepsSpaced | internal/web/server.go:216-229 | every step keeps repaints spaced and the next one not due before the cooldown |
| RepaintLoop.ReachablePages | internal/web/server.go:201-260 | both hold after every run of loop and queue from connect on |
| RepaintLoop.HandleKeyLive | internal/web/server.go:222-281 | the loop over received inputs, early returns included, ends with the panel of the turns it heard |
| RepaintLoop.LoopIsThePage | internal/web/server.go:222-281 | over any page run and the inputs of every kind it delivers, failed sends and the client's leaving included, the loop's variables are the page's at every stage and its repaints are the page's |
| RepaintLoop.LoopLosesNoUpdate | internal/web/server.go:222-281 | back in the select of any run, the loop's own panel shows those figures of the queue, or a signal is pending, or it owes a repaint with its cooldown running |
| RepaintLoop.LoopKeepsItsDistance | internal/web/server.go:51-56 | on the inputs heard in any run the loop's change-driven repaints are at least the minimum interval apart for each between them |
| RepaintLoop.ReturnIsFinal | internal/web/server.go:238-281 | once the loop has returned, later inputs change nothing |
| RepaintLoop.ReturnsAndPaintsExactly | internal/web/server.go:238-281 | the loop returns exactly when the client is gone or a fragment cannot be sent, and the strip changes exactly when a fragment of it is sent, to the frame just read |
| RepaintLoop.NothingIsRuledOut | internal/web/server.go:238-281 | in the select whatever is ready can be received in any order, and the queue moves whatever the loop is doing |
| RepaintLoop.TurnIsItsStages | internal/web/server.go:245-260 | a change or cooldown turn whose fragment is sent is what the stages do in sequence when the queue does not move between them |
| Calendar.DateRoundTrip | internal/domain/usage/usage.go:53 | the date read off a day names that day |
| Calendar.DayRoundTrip | internal/domain/usage/usage.go:53-60 | the day of a proper date reads as that date |
| Calendar.MonthOfDate | internal/domain/usage/usage.go:60-61 | the first of the month any number of months back is that month's start, across year ends |
| Calendar.MonthsAreAsLongAsTheyAre | internal/domain/usage/usage.go:60-61 | every month's first is followed by the next after 31 days, 30 in April, June, September and November, and in February 29 in a leap year by the Gregorian rule and 28 otherwise, across year ends |
| Calendar.DaysCountOn | internal/domain/usage/usage.go:53-58 | a day any number of days from the first of a month is that many days from it |
| Calendar.FirstDay | internal/domain/usage/usage.go:68-70 | the zero time is 1 January 1 |
| Calendar.WeekdaysRunOn | internal/domain/usage/usage.go:55-57 | weekdays follow one another, and 1 July 2026 was a Wednesday |
| Calendar.MonthStartIsLatest | internal/domain/usage/usage.go:60 | the first of a day's month is the latest first of a month not after it |
| UsageReport.WindowsByNumber | internal/domain/usage/usage.go:51-71 | the calendar arithmetic yields midnight today, the Monday on or before it, the first of this month and of the last, in the reference zone |
| UsageReport.TodayStartsAtLatestMidnight | internal/domain/usage/usage.go:53 | today began at the latest midnight not after now |
| UsageReport.WeekStartsAtLatestMonday | internal/domain/usage/usage.go:55-58 | the week began at the latest Monday midnight not after now |
| UsageReport.MonthsStartAtLatestFirsts | internal/domain/usage/usage.go:60-61 | this month and the past one began at the latest two firsts of a month not after now |
| UsageReport.WindowsTile | internal/domain/usage/usage.go:63-71 | this month, the past month and before meet end to start and reach from the zero time to now |
| UsageReport.WeekContainsTodayWithinTwoMonths | internal/domain/usage/usage.go:63-67 | the week contains today, ends now, and begins inside this month or the past one |
| UsageReport.WeekNestsInMonthExactly | internal/domain/usage/usage.go:30-40 | the week lies inside the month if and only if the day of the month exceeds the days since Monday |
| UsageReport.WeekCanStartBeforeTheMonth | internal/domain/usage/usage.go:30-40 | on 1 July 2026 it does not |
| UsageReport.ZonesAheadBeginEarlier | internal/domain/usage/usage.go:51-60 | two hours ahead of UTC, July 2026 began two hours before it did by UTC |
| UsageReport.FailingQueriesSurface | internal/domain/usage/usage.go:88-111 | the report is there if and only if all five queries answer, each figure then its own window's answer, and otherwise the error is that of the first query that fails |
| UsageReport.BucketsAddUpToLifetime | internal/domain/usage/usage.go:88-111 | over any log the three disjoint buckets add up to the single all-time query |
| Budget.CheckPassesExactly | internal/budget/budget.go:52-81 | a limited key passes exactly when its tokens in its period, stamped strictly before the check, are below the budget, with the difference as remainder |
| Budget.MeterAgreesWithEnforcement | internal/web/view.go:319-333 | over any log, instant, and either period, the meter's used, remaining and over equal what the check computes |
| Budget.BarIsFullExactlyWhenOver | internal/web/view.go:325-332 | the bar's width is between 0 and 100 and is 100 exactly when the key is over budget |
| Budget.BarShowsTheShareUsed | internal/web/view.go:319-332 | below the budget the bar's width is the share used in whole per cent, rounded down, and the remainder is the budget less the use |
| Budget.ValidatedExactly | internal/domain/apikey/apikey.go:173-198 | limits are accepted if and only if all five bounds hold, and each error is reported exactly if its bound is the first that does not |
| BudgetOvershoot.OvershootIsBounded | internal/domain/apikey/apikey.go:105-126 | in any concurrent run within one period, whatever requests are under way when it begins, the total is at most the budget less one plus the entries from the crossing write on, each from its own request that was under way at the crossing or read the clock at that instant |
| BudgetOvershoot.NoLaterCheckPasses | internal/proxy/handler.go:148-160 | no check that reads the clock after the crossing passes, also among requests carried over from the period before |
| BudgetOvershoot.NextPeriodStarts | internal/budget/budget.go:60-78 | what any run of one period ends with, under full traffic, is a start for the runs of the next, so the bound holds in every period of a key's life |
| BudgetOvershoot.PeriodsInOrder | internal/budget/budget.go:63-73 | two instants with different periods have the start of the later one's between them |
| BudgetOvershoot.StepKeepsInv | internal/proxy/handler.go:148-206 | every step of any request, in the handler's order of check, acquire, forward, release, stamp, record, keeps the ledger of entries and the crossing consistent with the store |
| BudgetOvershoot.LaterChecksFail | internal/budget/budget.go:57-81 | with the budget reached and every stamp before the clock reading, the half-open query fails the check |
| BudgetOvershoot.LateQuerySeesAll | internal/platform/database/usage_repo.go:33-48 | a half-open query ending after every stamp sums everything |
| RateLimiter.Limiter.Allow | internal/ratelimit/ratelimit.go:71-91 | the decision and the key's new window are the specified ones and no other key's window moves |
| RateLimiter.WindowsLastAMinute | internal/ratelimit/ratelimit.go:71-91 | a call is allowed if and only if the window of the minute before, or a new one after that minute, has fewer calls than its limit; only an allowed call takes a place, and a denied one is told the rest of that minute |
| RateLimiter.KeysDoNotInterfere | internal/ratelimit/ratelimit.go:40-51 | after any log of calls a key's window is what its own calls alone would have left |
| RateLimiter.RateBoundOverAnySpan | internal/ratelimit/ratelimit.go:64-91 | with a clock that never goes back and limits at most L, any half-open span of k minutes admits at most (k + 1) x L calls of a key |
| RateLimiter.RetryAfterReachesTheEnd | internal/ratelimit/ratelimit.go:20-32 | a denial's wait ends exactly at its window's end, and the reported seconds reach it and overshoot by less than one second (section 10.2.3 of RFC 9110) |
| RateLimiter.FullWindowStays | internal/ratelimit/ratelimit.go:77-86 | a window that denied stays in place and at least as full until it ends, whatever is called meanwhile |
| RateLimiter.DeniedUntilTheEnd | internal/ratelimit/ratelimit.go:84-87 | every call of the key with the same or a lower limit before the window's end is denied |
| RateLimiter.NewWindowCountsItsCalls | internal/ratelimit/ratelimit.go:77-90 | after that end the key's window is the old one unused since, or a new one whose count is exactly the calls allowed since |
| RateLimiter.AllowedAfterTheEndExactly | internal/ratelimit/ratelimit.go:77-90 | a call within a window after the wait is allowed if and only if fewer than its limit have used the new window |
| RateLimiter.WaitingTheReportedSecondsWorks | internal/ratelimit/ratelimit.go:20-32 | a call made exactly the reported seconds later is allowed if the new window has room |
| KeyLimits.ValidLimitsAreUsable | internal/domain/apikey/apikey.go:173-198 | validated limits let a fresh key through all three gates, and each numeric bound they impose is needed for that |
| EmbeddingInputs.SkipRest | internal/proxy/embeddings.go:122-140 | the depth-counting loop stops right after the bracket that closes the open one, and fails exactly if the tokens end first |
| EmbeddingInputs.SkipPassesValue | internal/proxy/embeddings.go:122-140 | at any depth, scanning passes over exactly one whole value |
| EmbeddingInputs.SkipConsumesExactlyOneValue | internal/proxy/embeddings.go:120-140 | with its opening bracket read, exactly the remainder of one nested value is consumed |
| EmbeddingInputs.FirstOtherIsFirst | internal/proxy/embeddings.go:83-96 | the element after which an array no longer counts as all numbers is its first non-number |
| EmbeddingInputs.ReadElement | internal/proxy/embeddings.go:79-101 | reads exactly one whole element, nested or not, and tells whether it was a number |
| EmbeddingInputs.CountArrayInputs | internal/proxy/embeddings.go:74-118 | the streaming loop, with its cap and early exit, returns the specified outcome for the array being read |
| EmbeddingInputs.CountInputs | internal/proxy/embeddings.go:48-68 | the count for any JSON value, or a missing field, is the specified outcome |
| EmbeddingInputs.AcceptedExactlyWhenAcceptable | internal/proxy/embeddings.go:34-118 | despite the early exit a request is accepted exactly when it is a string, a non-empty all-number array of at most 100000 elements, or another array of 1 to min(limit, 100000) elements, and then the count is what it carries |
| EmbeddingInputs.RefusedExactly | internal/proxy/embeddings.go:52-105 | the input is invalid if and only if it is neither a string nor an array, and too large if and only if it is an array of more than 100000 elements whose first 100000 are all numbers or do not pass the limit |
| EmbeddingInputs.CountIsExactOrPastTheLimit | internal/proxy/embeddings.go:101-118 | the count reported is the number of inputs, or past the limit and not past that number |
| EmbeddingsHandler.Handler.Decode | internal/proxy/handler.go:105-138 | refuses exactly the requests without credentials, with an oversized or malformed body, or with an unacceptable batch, touching nothing, with 401, 413 or 400 |
| EmbeddingsHandler.Handler.Account | internal/proxy/handler.go:193-206 | records the backend's own token count under the key, or nothing if the store fails, which does not fail the call |
| EmbeddingsHandler.Handler.Serve | internal/proxy/handler.go:176-222 | forwards, gives the slot back, accounts for a 200 only, and relays the backend's status with the remaining budget of a limited key |
| EmbeddingsHandler.Handler.Admit | internal/proxy/handler.go:148-175 | the check's error, exhaustion and an abandoned wait end the request before it is forwarded, with the answers of LateAnswers |
| EmbeddingsHandler.Handler.Meter | internal/proxy/handler.go:141-222 | a well-formed request spends one call of its key's window; a denial ends it with the seconds to wait and nothing further happens, and otherwise it goes on to the budget and the queue |
| EmbeddingsHandler.Handler.Embeddings | internal/proxy/handler.go:97-222 | for any world the response is the one EarlyRefusals and LateAnswers describe, and the order of effects, the key's new rate window and the store's new log are the specified ones |
| EmbeddingsHandler.SlotCoversOnlyForwarding | internal/proxy/handler.go:176-186 | the slot is held when the request is forwarded, not when anything is recorded, and never at the end, despite the second release |
| EmbeddingsHandler.ForwardedExactlyThroughTheGates | internal/proxy/handler.go:97-206 | a request is forwarded exactly if it passes every gate and waits, and an event is recorded exactly if the backend then answers 200, carrying its count, key and stamp |
| EmbeddingsHandler.RefusedRequestsGoNoFurther | internal/proxy/handler.go:97-100 | the rate is charged exactly to well-formed requests, the budget checked exactly within the rate, a slot asked for exactly within the budget |
| EmbeddingsHandler.EarlyRefusals | internal/proxy/handler.go:108-146 | 401, 413, 400 and 429 are each answered if and only if the credentials, the size of the body, its JSON or its inputs, or the rate is what stops the request, and a 429 names the wait rounded up to whole seconds |
| EmbeddingsHandler.LateAnswers | internal/proxy/handler.go:148-222 | past those, 500 if and only if the query of a limited key fails, 402 if and only if it answers with the budget used up, 503 if and only if the caller gives up waiting, 502 if and only if the backend cannot be reached, and otherwise the backend's status, with the budget less the use in the header exactly on a 200 to a limited key |
| EmbeddingsHandler.EffectsAreTheSteps | internal/proxy/handler.go:141-206 | the effects the handler returns are, in order, the rate charged, then what its steps in the concurrent model show, then the deferred release exactly if it got a slot |
| EmbeddingsHandler.ServingIsLegal | internal/proxy/handler.go:181-206 | from any traffic in which the request holds a slot, the rest of its steps are a legal run that leaves the handler's log |
| EmbeddingsHandler.HandlerFollowsTheModel | internal/proxy/handler.go:148-206 | from any traffic the handler's steps are a legal run of the concurrent model, end the request, and leave the store as the handler does |
| RequestStories.FinishedRequestsAreHandled | internal/proxy/handler.go:148-206 | conversely, in any legal run, however interleaved, a finished request's own steps are those the handler takes in the world that run showed it: the store at its own query, the clock readings of its check and its stamp, and the event it recorded are the run's |
| RequestStories.RunTellsStory | internal/proxy/handler.go:148-206 | at every point of a run a request's own steps are those of its stage, it is past the check only if the store as its own query saw it passed it, and its clock readings and recorded event are the run's |
| ForwardingBound.ForwardingStaysWithinCapacity | internal/proxy/handler.go:162-186 | in every run of the handler's requests with the queue, of any number of keys and however they interleave, no more requests than the capacity are being forwarded at once |
| ForwardingBound.ForwardedExactlyWhileHolding | internal/proxy/handler.go:167-186 | in every such run a request is being forwarded exactly while its own call of Acquire holds a slot |
| ForwardingBound.NobodyIsStuck | internal/proxy/handler.go:162-186 | a request past its check can always take a step with the queue: join it, give up while parked, go on once granted, or give its slot back |
| ForwardingBound.StepKeepsInv | internal/proxy/handler.go:167-186 | every step of queue or requests keeps each request that joined the queue in step with its own call, no two sharing one, and nobody forwarded who did not join |
| ForwardingBound.NextPeriodIsInStep | internal/proxy/handler.go:167-186 | the turn of a key's budget period, with requests queued and being forwarded, keeps all that |
| ForwardingBound.RunsAreTheQueues | internal/queue/queue.go:145-203 | seen by the queue, every such run is one of the runs of the queue's own model |
| ForwardingBound.RunsAreTheTraffics | internal/proxy/handler.go:148-206 | seen by one key's requests it is one of the runs of the overshoot's model |
| HubRegistry.StepKeepsInv | internal/live/hub.go:73-114 | every subscribe and cancel keeps each actor registered with somebody on it, or stopped once with nobody |
| HubRegistry.RegisteredExactlyWhileWatched | internal/live/hub.go:73-114 | in every run a key is registered exactly while it has an uncancelled subscriber, and its one actor then has exactly those |
| HubRegistry.StoppedAtMostOnceAndNeverWhileRegistered | internal/live/actor.go:160-162 | in every run no actor is stopped twice, the unstopped are exactly the registered, and a key has at most one |
| HubRegistry.RetiredActorsStayRetired | internal/live/hub.go:98-114 | an actor is stopped by the very step that takes it out of the map and is never used again |
| HubRegistry.CancellingAgainDoesNothing | internal/live/hub.go:94-96 | a cancel called again, after any other operations, changes nothing |
| SnapshotDelivery.StepKeepsInv | internal/live/actor.go:93-146 | every channel operation, lock step and read keeps each channel's stream ordered and due or up to date |
| SnapshotDelivery.NoSendGivesUp | internal/live/actor.go:106-122 | the last fallback of a send is unreachable: at its second attempt the channel is empty |
| SnapshotDelivery.NewestIsWaitingOrRead | internal/live/actor.go:93-104 | whenever no send is under way every primed subscriber has the newest snapshot waiting or has read it |
| SnapshotDelivery.ReadsNeverGoBack | internal/live/hub.go:80-92 | no subscriber ever reads an older snapshot after a newer one, and at most one snapshot twice, across the gap between joining and priming |
| SnapshotDelivery.JoiningCanReadTwice | internal/live/hub.go:87-92 | that one repetition can happen |
| SnapshotDelivery.SendingNeverWaits | internal/live/actor.go:106-122 | the lock holder always has a step to take, whatever the receivers do |
| SnapshotDelivery.EveryStepLeavesLess | internal/live/actor.go:94-122 | each of its steps leaves fewer, at most four for each subscriber, and a read never adds any |
| SnapshotDelivery.NothingIsRuledOut | internal/live/actor.go:93-147 | with the lock free anybody can join, be primed or leave and the actor can publish, and what a channel holds can always be read |
| SnapshotDelivery.PublishLeads | internal/live/actor.go:94-122 | from any state with the lock free, taking it, sending to each subscriber with one or three channel operations, and unlocking leads to the newest snapshot in every subscriber's channel |
| SnapshotDelivery.PrimingLeads | internal/live/actor.go:129-139 | priming one subscriber likewise leads to the newest snapshot in its channel, or to nothing before the first publish |
| SnapshotDelivery.ContinuesTheRun | internal/live/actor.go:93-146 | after any run of the model such a sequence of steps is a run again |
| ReadModel.StepKeepsInv | internal/live/actor.go:47-92 | every step keeps each figure equal to what the last load's query found plus, for the open buckets, the credits applied since |
| ReadModel.DriftIsExactlyAccounted | internal/live/actor.go:62-74 | without a rollover an open figure is the store's total, less events neither seen by the load nor credited since, plus those both seen and credited, plus those credited outside the bucket |
| ReadModel.MissingEventsExplained | internal/live/actor.go:149-158 | the credit of a missing event is pending or was dropped, unless the event is stamped at the very instant of the load; one stamped before it was written after the load's query |
| ReadModel.DoubledEventsExplained | internal/live/recorder.go:33-41 | an event both seen and credited is stamped before the load, and its credit was in flight or buffered when the load began, or it was written while the load ran |
| ReadModel.StrayEventsExplained | internal/live/actor.go:62-69 | an event credited outside the bucket is stamped before the bucket began, or at the instant looked at or later |
| ReadModel.ClosedBucketsMoveOnlyOnLoads | internal/live/actor.go:62-69 | the past month and before show what the last successful load found, at any time in any run |
| ReadModel.FailedLoadKeepsFigures | internal/live/actor.go:80-92 | a load failing at any query leaves every figure as it was |
| ReadModel.LostExactlyWhenFull | internal/live/actor.go:149-158 | a credit is lost if and only if 64 are waiting when it is published |
| ReadModel.PublishedCreditsAreApplied | internal/live/actor.go:62-69 | a credit published with fewer than 64 waiting is applied right after exactly those |
| ReadModel.DrainsInOrder | internal/live/actor.go:62-69 | waiting credits are applied one by one in the order they were published |
| ReadModel.NothingIsRuledOut | internal/live/actor.go:55-92 | in every sound state time, writes, publishes, credits, loads and failures of their queries can each come next |
| Resync.FullLoadShowsTheStore | internal/domain/usage/usage.go:90-111 | an uninterrupted load replaces the figures by the report built from the store at its clock reading |
| Resync.SettledCreditsStay | internal/live/actor.go:55-75 | with nothing in flight before a load, the credits of earlier events are never applied again until the next |
| Resync.LoadOfRun | internal/live/actor.go:71-74 | through any run of one resync, whatever comes between its queries, the load remembers the clock reading and the credits it began with |
| Resync.DifferenceAfterLoad | internal/live/actor.go:62-74 | once the credits on their way when the last load began and all later ones have been applied, an open figure is the store's total plus the events counted again less the settled ties |
| Resync.ResyncDifference | internal/live/actor.go:71-74 | the same over any run of one resync with any steps between its five queries |
| Resync.DifferenceKnownBeforehand | internal/live/actor.go:71-74 | if later events are stamped no earlier than the load, that difference is settled before the load begins: the tokens whose credits are on their way less those of settled ties |
| Resync.EqualAfterResyncExactly | internal/live/recorder.go:33-41 | with earlier events stamped before the load and later ones not, the figure exceeds the total by exactly the tokens whose credits were in flight or buffered when it began, so they are equal if and only if none of those events has any |
| Resync.ShortByTiesExactly | internal/platform/database/usage_repo.go:36-41 | with no credit on its way and later events stamped no earlier than the load, the figure is short by exactly the tokens stamped at the instant of the load, so it is equal if and only if none are |
| Resync.ResyncRestoresEquality | internal/live/actor.go:70-74 | with no credit on its way and every event stamped before it, a resync under live traffic restores equality: as long as later events are stamped no earlier than it and inside the bucket, the open figures equal the store's totals whenever all later credits have been applied |
| Resync.CleanResyncCanHappen | internal/live/actor.go:71-74 | from every quiet state there is such a resync, so the results above speak of something |
| Resync.CleanResyncRestoresEquality | internal/live/actor.go:70-74 | the same for a load nothing interrupts, whatever the stamps of later events inside the bucket |
| Resync.CleanResyncEqualExactly | internal/live/actor.go:70-74 | right after an uninterrupted load a figure equals the store's total at a later instant if and only if no event with tokens is stamped in between |
| Resync.TieIsMissedUntilTheNextLoad | internal/platform/database/usage_repo.go:36-41 | an event stamped at the instant of a load with its credit settled by then is missing from the open figures in every state of every run until the next load |
| Resync.TieCanHappen | internal/live/actor.go:62-92 | from any fresh actor with an empty buffer a run leads to such an event: its first load fails, and an event is written, published and applied at the instant of the next load, which can follow |
| Resync.LoadBetweenWriteAndPublishCountsTwice | internal/live/recorder.go:33-41 | an instance: one event, loaded before its publish, is in the open figures twice once its credit is applied |
| Resync.LoadBetweenWriteAndPublishCanHappen | internal/live/recorder.go:33-41 | a run from any fresh actor of an empty store leads to that instance |
| LiveHub.Channel.Send | internal/live/actor.go:109-122 | a full or empty channel holds the new snapshot afterwards |
| LiveHub.KeyActor.PrimeSub | internal/live/actor.go:129-139 | a primed actor gives the channel its latest snapshot, an unprimed one nothing; the actor goes on mirroring the delivery model through its priming |
| LiveHub.KeyActor.Publish | internal/live/actor.go:93-104 | the loop leaves the new snapshot in every subscriber's channel; the actor goes on mirroring the delivery model through its publish |
| LiveHub.KeyActor.AddSub | internal/live/actor.go:124-128 | the new channel joins under its number; the actor goes on mirroring the delivery model through its AddSub |
| LiveHub.KeyActor.RemoveSub | internal/live/actor.go:141-147 | the channel is taken out and the number left is returned; the actor goes on mirroring the delivery model through its RemoveSub |
| LiveHub.KeyActor.ApplyCredit | internal/live/actor.go:62-69 | the oldest credit moves the three open buckets and no other and is published; the actor goes on mirroring the read model through its ApplyCredit |
| LiveHub.KeyActor.Resync | internal/live/actor.go:71-92 | publishes the loaded report, or the last one if the load failed; the actor goes on mirroring the read model through the end of its load |
| LiveHub.KeyActor.Credit | internal/live/actor.go:152-158 | joins the buffer of 64 or is dropped; the actor goes on mirroring the read model through its Publish |
| LiveHub.Hub.Lookup | internal/live/hub.go:81-86 | yields the key's registered actor, started if there was none |
| LiveHub.Hub.Enrol | internal/live/hub.go:80-88 | the section under the lock is the registry's Subscribe |
| LiveHub.Hub.Subscribe | internal/live/hub.go:73-96 | is the registry's Subscribe, and the new channel holds the actor's latest snapshot if it has one |
| LiveHub.Hub.Unsubscribe | internal/live/hub.go:99-114 | detaches the channel, and deletes and stops the actor exactly when the registry says nobody is left |
| LiveHub.Hub.Cancel | internal/live/hub.go:94-96 | is the registry's Cancel; a repeated one changes neither map nor registry |
| LiveHub.Hub.Publish | internal/live/hub.go:119-127 | credits the key's actor if there is one, and changes nothing else |
| LiveHub.Hub.Watching | internal/live/hub.go:131-135 | the number of registered keys |
| LiveHub.Recorder.Record | internal/live/recorder.go:33-41 | the hub is told with the event already written, an event that fails to be written credits nobody, and the key's actor mirrors the read model's Write followed by that event's Publish |

## Left out

- HTTP routing, authentication, header and body contents and the error envelope; of the request handler its statuses and the order of its effects are kept.
- EmbeddingsHandler.Handler.Embeddings: runs alone, so between its check and its record nothing else is written; the interleavings are in BudgetOvershoot, whose steps its effects are. A panicking forwarder and a failed relay to the client are not modelled.
- EmbeddingsHandler.Handler.Admit: whether the caller waits for its slot is a parameter; when the slot comes is decided in ForwardingBound, where requests and queue run together.
- EmbeddingsHandler.Handler.Serve: forwarding and giving the slot back are entries in the list of effects it returns; what a release does is AdmissionQueue.Queue.Release.
- EmbeddingsHandler.Handler.Account: the backend's token count is taken as given and never negative.
- GORM, SQLite and migrations: the store is a sequence of events with half-open sums, and each query sees one instant of it.
- Templates, patching of fragments, price, priority and plural labels, the width of the bucket bars.
- Configuration, the command-line tool, key generation and hashing, revocation.
- JSON lexing: the decoder is a cursor over the tokens of a well-formed value, as the body has been validated before (`internal/proxy/handler.go:122-126`).
- Scheduling of goroutines, real timers, channels and one-shot guards: they are atomic steps, bounded buffers and flags, and a select with several ready cases is a free choice.
- Clocks that go back, daylight saving, integer overflow and floating-point rounding; the zone is a fixed offset, and the ceiling in RetryAfterSeconds is exact.
- Linked lists: each class is a sequence of waiters, so the constant cost of unlinking is not captured.
- `sort.Slice` in the queue's snapshot and the map's iteration order: sorting is a function, iteration an arbitrary choice of the next key.
- AdmissionQueue.Queue: its field `next` numbers calls and stands for the identity of waiters, which the program gets from pointers.
- AdmissionQueue.Queue: the caller of Watch supplies the number of a new channel, where the program makes the channel.
- LiveHub.Hub: its field `next` numbers channels, and `spent` gathers the one-shot guards that the program keeps in the cancel functions it returns.
- LiveHub.Hub.Publish: looks the actor up and credits it in one step; an actor retired in between would take a credit nobody reads.
- LiveHub.Hub.Lookup: starting the actor's goroutine with the first subscriber's context is not modelled; that a registered actor is running rests on that context ending only at shutdown (`internal/live/actor.go:58-60`).
- LiveHub.KeyActor: its loop over credits, ticks and the end of its context is not one method; the steps it chooses between are, and their interleaving is in ReadModel.
- LiveHub.Channel.Send: runs alone; receivers acting between its channel operations are in SnapshotDelivery.
- EmbeddingsHandler.HandlerFollowsTheModel: the handler's clock readings lie in one period, as a run of the model does; a request that crosses the turn of a period is one under way when the next run begins.
- ForwardingBound.ForwardedExactlyWhileHolding: the backend's answer and the release right after it are one step; between the two the program holds a slot for a request no longer being forwarded, so the bound holds there too.
- BudgetOvershoot.OvershootIsBounded: a run is one key's within one budget period; BudgetOvershoot.NextPeriodStarts chains the periods of a zone whose offset stays the same.
- ReadModel.DriftIsExactlyAccounted: between the turn of a day, week or month and the next load an open bucket still counts from its old start, and nothing is claimed then.
- Resync.ResyncRestoresEquality: like every exact result on a resync it speaks of a load that succeeds, and of instants at which no later credit is pending or was dropped.
- ReadModel: an actor's life begins with the clock reading of its first load, with the credits published since it was registered in its buffer; those published before count as gone.
- RepaintLoop: the panel of the key's own usage, fed by snapshots, and the content of the heartbeat's elapsed times; a heartbeat repaints the same strip.
- The three windows that share their end are not claimed to nest, as the week may begin before the month.
- Applying limits to a key, all or nothing, is settled by reading its one branch.
