# A model of the browser-session service

The service keeps a registry of browser sessions on one asyncio event loop. Requests create,
use, probe and delete sessions while a reaper removes idle ones and an operator may reset
everything. Code between two suspension points is atomic; everything else interleaves. This
project states what holds under every interleaving and proves it.

## How the model is laid out

- `Common`, `Text`, `Bits`: stock types, the few string tests the service makes, and `&` on
  integers.
- `AsyncLock`: `asyncio.Lock` of Python 3.11, the version the service pins (`Dockerfile:1`).
  `release` clears the flag before the woken waiter runs, and a cancelled waiter stays in the
  queue until its own task runs; both windows are modelled. The holder's identity is kept for
  the proofs; the service never reads it.
- `HttpErrors`: error classes, their status, and what `_run_action` does with each.
- `Registry`: the registry as a transition system. A state holds the records, the registry,
  tombstones, counters, each record's lock, and where every request task and the reaper are
  suspended. One event is one atomic segment. The ledger counts what the service does not
  count: pops that find nothing, mass drops, and late inserts. `reapLog` remembers each reap.
- `RegistryInv`, `RegistrySteps`: the invariant, and that every segment keeps it.
- `RegistryTheorems`, `RegistryPolicy`, `RegistryQuiet`: what follows, for every reachable
  state, for the reaper's and the eviction's choices, and for runs of creates, actions, probes
  and reaper passes over a live engine only.
- `RegistryAccounts`: when the public counters add up, who is behind each eviction, and how
  many engine sessions can be open.
- `RegistryEffects`: what each segment does to the idle clocks, the counters and the registry,
  field by field, and what that means over whole runs.
- `RegistryReset`: the loops that empty the registry, a reset and a mass drop, undisturbed and
  under interleaving.
- `RegistryProgress`: from every reachable state a wait without a deadline can end.
- `RegistryEvicted`, `RegistryHidden`: what a lookup answers for sessions that were evicted,
  deleted or purged.
- `RegistryCounterexamples`: three promises the code does not keep, each with a complete run.
- `Sessions`: the manager as the object it is, a class whose fields are updated in place by
  one method per segment. Every method is proved to do what `Registry` says for that segment.
  Suspension points are ghost; a suspended task's local variables are arguments of the method
  that resumes it.
- `SessionRuns`: an event loop that drives a manager object through any run of events.
  `SessionRuns.Run` ends in the state of the transition system, so what is proved of its
  reachable states holds of the object.
- `NetworkLog`, `Locators`, `EvaluateSettled`: the bounded network log with late statuses,
  the single-element wait under one time budget, and the retrying evaluation.
- `Engine`, `PlaywrightEngines`: lazy start, browser ownership and crash counting, as a
  transition system and as a class.
- `Service`: registry and engine together. A create that goes on to launch calls `new_session`
  in the same segment, and resumes in the segment in which that call returns or fails; a reaper
  pass asks this engine whether it is alive; and a session closes its browser only after the
  registry called `close` on it.
- `Ssrf`: the two checks in front of a navigation.

Session ids are issue numbers, so the dict's insertion order is numeric order and ids are
fresh. Time is one monotone real-valued clock.

## Where the code and its own words differ

- `_evict_one` says capacity is checked again before the insert
  (`api/session_manager.py:188-194`). After the second eviction it is not
  (`api/session_manager.py:236-253`): `CapCanBeExceeded` is a run that ends with two sessions
  in a registry for one, and `OvershootIffLateInsert` says exactly which step does it.
- `_evict_one` also says nothing is awaited between choosing the victim and the insert; on the
  first pass the whole of `new_session` is. The model follows the code.
- A comment in the same method says that a deleted session answers as unknown, like an evicted one
  (`api/session_manager.py:199-200`), and the description of the service's interface promises it
  of DELETE. Evicted ones do (`VictimAnswersUnknown`). A deleted one can turn into an expired one:
  `DeletedIdCanAnswerExpired` is a run in which a reaper pass queues for the lock behind a
  delete and buries the session once more afterwards. `DeletedAnswersUnknownIff` says exactly
  when the promise holds, and `PurgedAnswersUnknownIff` says it for the reset.
- A deletion can be counted twice (`DeletionCanBeCountedTwice`); `SurplusGrowsIff` says which
  segment throws the counters out, and `RunIsExactIff` when they add up over a whole run.
- `is_5xx_engine_error` recognises one of the three kinds of error that become a 5xx
  (`FiveXxTestIsNarrower`).
- The deny-list's entry for IPv4-mapped addresses never decides (`MappedEntryNeverDecides`).

## Model

| member | source | states |
|---|---|---|
| RegistryTheorems.OvershootIffLateInsert | api/session_manager.py:209-255 | from a registry within the cap, one atomic segment exceeds it if and only if it is a create resuming from its second eviction in a full registry from which somebody else already removed the victim |
| RegistryTheorems.CapacityOfEveryRun | api/session_manager.py:185-255 | over every interleaving the registry holds at most the cap plus the number of such late inserts |
| RegistryCounterexamples.CapCanBeExceeded | api/session_manager.py:226-253 | a reachable state with more sessions than the cap, contrary to the comment on the eviction |
| RegistryQuiet.QuietRunsAreExact | api/session_manager.py:185-319 | in every run of creates, actions, probes and live passes the cap holds, created = live + reaped + evicted, and a registered record is hidden exactly while one task has claimed it |
| RegistryQuiet.KeepsQuiet | api/session_manager.py:185-319 | every segment of such a run keeps claimed records registered and every pop effective |
| RegistryTheorems.ConservationOfEveryRun | api/session_manager.py:198-201 | at every suspension point created + pops of nothing = live + reaped + deleted + evicted + dropped |
| RegistryAccounts.SurplusGrowsIff | api/session_manager.py:198-201 | a segment raises the surplus of the counters over the sessions that left, by one, if and only if the record it is about to pop and count is no longer registered; no segment lowers it |
| RegistryAccounts.RunIsExactIff | api/session_manager.py:283-284 | over every run the counters never fall short, and they account for every created session if and only if each pop of the run found its record |
| RegistryTheorems.CountersAreExactIff | api/session_manager.py:308-310 | in every reachable state the counters do not fall short, and they are exact if and only if no pop so far has found its record gone |
| RegistryAccounts.EveryEvictionIsACreates | api/session_manager.py:216-237 | the eviction counter is the sum of what each create evicted, failed ones included; none evicted more than two sessions, a failed one at most one, and a create that succeeded reports a session if and only if it evicted one |
| RegistryAccounts.KeepsTally | api/session_manager.py:201 | every segment raises the eviction counter by exactly what its own create has evicted meanwhile |
| RegistryAccounts.OpenEnginesAreBounded | api/session_manager.py:225-253 | engine sessions started and not closed are at most the registered ones plus one for each create that is making room, hence at most the cap plus late inserts plus those |
| RegistryCounterexamples.DeletionCanBeCountedTwice | api/session_manager.py:272-285 | a reachable state with one session ever created and two deletions counted |
| RegistryTheorems.ClaimIsUnique | api/session_manager.py:195-198 | no record is ever claimed by two of the pending evictions and the reaper, and a claimed record is hidden |
| RegistryTheorems.LockedIff | api/session_manager.py:272-310 | in every reachable state a session lock is held if and only if a pending task holds it or the session has been reaped, and never for both reasons |
| RegistryTheorems.OneAtATime | api/v1/sessions/actions/router.py:92-139 | at most one action, delete teardown, reap or status probe works on a session, and it is the one that holds the lock |
| RegistryTheorems.NobodyIsStuck | api/session_manager.py:304-310 | whoever waits for a session lock has somebody who can move: the holder, the head of a free lock's queue, or, on a lock the reaper keeps for good, the waiter itself because its wait is timed |
| RegistryProgress.UntimedWaitCanEnd | api/v1/sessions/router.py:86-93 | from every reachable state, whoever waits for a session lock without a deadline has a run after which it is its turn |
| RegistryProgress.ReapCanFinish | api/session_manager.py:304-310 | from every state that keeps the invariant, a session the reaper has claimed has a run in which it is the next one reaped |
| RegistryTheorems.ReaperWaitsForRequestsOnly | api/session_manager.py:304-305 | the reaper's own untimed wait is never on a lock that nobody will release |
| RegistryTheorems.NoEngineSessionIsLost | api/session_manager.py:225-253 | every engine session ever started is closed, registered, or with a create that is making room for it |
| RegistryTheorems.FoundIsOpen | api/session_manager.py:257-260 | the engine session behind anything `get` finds has not been closed and belongs to no other record |
| RegistryTheorems.TombstonesAreTheLastReaps | api/session_manager.py:156-160 | the tombstones are exactly the last `tombstone_max` reaped ids in order, distinct, each with its own timeout, none of them registered |
| RegistryTheorems.ReapedAnswer | api/session_manager.py:257-263 | a reaped id answers expired, with its own timeout, while fewer than `tombstone_max` reaps came after it, and unknown from then on |
| RegistryTheorems.UnreapedAnswer | api/session_manager.py:257-263 | an id that was never reaped is found or unknown, never expired |
| RegistryTheorems.LifeOfAnId | api/session_manager.py:257-263 | over every run, an id `get` no longer finds is never found again, and a reaped id goes from expired to unknown only by overflow |
| RegistryTheorems.RunIsLater | api/session_manager.py:268-285 | no run brings a removed record back, clears a closing flag, moves an engine session, changes a timeout or rewrites the history of reaps |
| RegistrySteps.KeepsInv | api/session_manager.py:156-319 | every atomic segment of every task keeps claims, locks, engine ownership, tombstones, clocks and books consistent |
| RegistrySteps.RunKeepsInv | api/session_manager.py:156-319 | so does every run |
| RegistrySteps.KeepsEvictSecondDone | api/session_manager.py:236-255 | resuming from the second eviction and inserting keeps all of it, the cap being charged to the late-insert count |
| RegistrySteps.KeepsBodyEnds | api/v1/sessions/actions/router.py:104-139 | accounting for an outcome and releasing the lock keeps all of it |
| RegistrySteps.KeepsReset | api/v1/admin/router.py:57-62 | a reset that ignores locks keeps all of it |
| RegistrySteps.KeepsBury | api/session_manager.py:308-310 | popping, tombstoning and counting a reaped session while keeping its lock keeps all of it |
| RegistryPolicy.ReaperClaimIsSound | api/session_manager.py:295-304 | every session the reaper takes was registered, not hidden, used by nobody and idle for longer than its own timeout at that moment, although the pass read its clock once |
| RegistryPolicy.UndisturbedPass | api/session_manager.py:295-310 | a pass nobody disturbs removes exactly the registered, visible, free sessions unused for longer than their own timeout, counts and buries each, and leaves every other record as it was |
| RegistryPolicy.PassMissesNobody | api/session_manager.py:295-304 | a pass that begins walks past a session only if it is hidden, locked or within its timeout, and takes the first that is not |
| RegistryPolicy.PassGoesOnMissingNobody | api/session_manager.py:296-304 | the same when a pass goes on after a reap, by the clock it read when it began, whatever happened meanwhile |
| RegistryPolicy.EvictionIsSound | api/session_manager.py:169-183 | a victim is taken only from a full registry, is registered, unused by anybody and idle for five seconds, and every registered session unused for longer was hidden, locked or used within them |
| RegistryPolicy.RefusedIffNoCandidate | api/session_manager.py:217-235 | a create is refused, on either pass, if and only if the registry is full and each of its sessions is hidden, locked or was used within five seconds |
| RegistryPolicy.UndisturbedCreate | api/session_manager.py:216-255 | a create nobody disturbs on a full registry with a session to spare swaps the one unused for longest for the new one, keeps the size and reports the id that went |
| RegistryEffects.IdleClockMovesIff | api/v1/sessions/actions/router.py:104-137 | no segment moves the idle clock of an issued session except the end of an action with a 200 or 404, which sets it to now |
| RegistryEffects.UsedSessionIsSafe | api/session_manager.py:268-304 | over every run, a session an action has just used is not taken by the reaper before more than its own timeout has passed |
| RegistryEffects.CountersMoveIff | api/session_manager.py:116-122 | each public counter rises by one in exactly the segments it is named after: inserts, reaps, deletes and purges, refusals on either pass, evictions, action starts, and action ends with a 5xx |
| RegistryEffects.RegistryMoves | api/session_manager.py:198-310 | over a live engine each segment removes exactly the record it pops and adds exactly the one it inserts |
| RegistryEffects.InsertedAsRequested | api/session_manager.py:164-255 | a session is inserted visible, free, used just now, with its create's engine session, and with the timeout its caller asked for: the default for none, else the value kept within the bounds; the create reports its last victim |
| RegistryEffects.RequestIsKept | api/session_manager.py:209-237 | what the caller asked for stays with the create across both evictions and the launch |
| RegistryEffects.CreateGoesWhere | api/session_manager.py:217-225 | the first segment of a create launches if and only if the registry is below the cap, else evicts the session unused for longest or, if all are spared, gives up |
| RegistryEffects.LaunchGoesWhere | api/session_manager.py:226-237 | the same choice once the engine session is there |
| RegistryEffects.CallGoesWhere | api/v1/sessions/router.py:81-87 | a request on a session it cannot find ends at once, and a probe never waits for a lock that is held |
| RegistryEffects.TimedOutWaitEnds | api/v1/sessions/actions/router.py:92-97 | a wait that times out leaves the queue and ends its request as soon as its task runs, without touching the holder |
| RegistryEffects.TimeoutBeforeQueueing | api/v1/sessions/actions/router.py:92-97 | a deadline that passes before the acquiring task has run ends the request and changes nothing else |
| RegistryEffects.BodyEndFreesTheLock | api/v1/sessions/actions/router.py:138-139 | however a body ends, its request is over, the lock is free, the queue is in order and its head has been woken |
| RegistryReset.UndisturbedReset | api/v1/admin/router.py:57-62 | a reset nobody disturbs empties the registry from any state: every session is hidden, closed and counted as deleted |
| RegistryReset.ResetRemovesAll | api/v1/admin/router.py:57-62 | under every interleaving, when a reset has ended each session registered as it began is hidden, closed and gone |
| RegistryReset.UndisturbedDrop | api/session_manager.py:288-294 | a pass nobody disturbs over a dead engine drops the whole registry, closes every engine session, and leaves tombstones and public counters alone |
| RegistryHidden.VictimAnswersUnknown | api/session_manager.py:195-201 | from the moment it is chosen every victim of an eviction is answered as unknown in every continuation, whether its create succeeds or fails |
| RegistryHidden.EvictedAnswersUnknown | api/session_manager.py:199-201 | the id a successful create reports is not its own, and is answered as unknown in every continuation |
| RegistryHidden.AlwaysUnknownIff | api/session_manager.py:257-263 | a hidden session is unknown in every continuation if and only if nothing is tombstoned at all, or the reaper has no claim on it and keeps no tombstone of it |
| RegistryHidden.DeletedAnswersUnknownIff | api/session_manager.py:278-285 | after a delete its id is unknown in every continuation if and only if, as the delete ends, the reaper is not waiting for the same session, or nothing is tombstoned at all |
| RegistryHidden.PurgedAnswersUnknownIff | api/v1/admin/router.py:57-62 | the same for a record a reset has purged: the reaper must have no claim on it and keep no tombstone of it |
| RegistryCounterexamples.DeletedIdCanAnswerExpired | api/session_manager.py:272-310 | a reachable state in which a session deleted and counted as deleted is counted as reaped too and answers as expired |
| RegistryEvicted.KeepsEvictions | api/session_manager.py:195-201 | every segment keeps a session that is being evicted hidden and out of the reaper's hands, and an evicted one out of the registry |
| RegistryPolicy.UpKeepsSessions | api/session_manager.py:288-294 | a pass that finds the engine dead removes nothing if no engine session was ever made |
| AsyncLock.AcquireKeeps | api/session_manager.py:305 | `acquire` never queues a task twice and never lets an untimed wait stand behind the reaper |
| AsyncLock.NobodyIsOvertaken | api/session_manager.py:305 | whoever comes later overtakes nobody, and takes a lock past a waiter only if that wait has been cancelled |
| AsyncLock.CancelledStaysPut | api/session_manager.py:275-277 | a wait that times out is marked as cancelled in its place and the holder stays |
| AsyncLock.ReleaseKeeps | api/v1/sessions/actions/router.py:138-139 | `release` loses no wake-up: a free lock with waiters has a head that is about to run |
| AsyncLock.ResumeKeeps | api/session_manager.py:274-275 | a woken waiter finds the lock free, takes it and leaves the queue |
| AsyncLock.CancelKeeps | api/session_manager.py:275-277 | a timed-out wait stays in the queue, and only timed waits are ever cancelled |
| AsyncLock.AbandonKeeps | api/session_manager.py:275-277 | a cancelled waiter that leaves passes a wake-up it received on to the next |
| Registry.OldestAmong | api/session_manager.py:169-183 | the choice is evictable and unused for longest, the first in registry order among equals, and there is none only if nobody is evictable |
| Registry.OrderedUpTo | api/session_manager.py:296 | the snapshot is exactly the registry's keys, each once, in insertion order |
| Sessions.SessionManager.Get | api/session_manager.py:257-263 | finds, reports expired with the timeout, or reports unknown, as the transition system answers |
| Sessions.SessionManager.List | api/session_manager.py:265-266 | exactly the sessions `get` would find, in insertion order |
| Sessions.SessionManager.OldestEvictableIdle | api/session_manager.py:169-183 | the loop finds the specified victim, or nobody exactly when there is none |
| Sessions.SessionManager.TombstoneAdd | api/session_manager.py:156-160 | the loop leaves exactly the newest entries, the added one last and only once |
| Sessions.SessionManager.CreateCall | api/session_manager.py:216-223 | the first segment of a create launches, refuses, or hides and starts closing a victim, and nothing else changes |
| Sessions.SessionManager.EvictFirstDone | api/session_manager.py:198-225 | the first eviction ends: popped if still there, counted, and the create goes on to launch |
| Sessions.SessionManager.LaunchDone | api/session_manager.py:226-255 | with the engine session in hand the create inserts, evicts once more, or starts closing what it was given, and carries over what it has evicted so far |
| Sessions.SessionManager.RejectDone | api/session_manager.py:232-235 | the refusal is counted once the unused engine session has been closed |
| Sessions.SessionManager.EvictSecondDone | api/session_manager.py:198-255 | the second eviction ends and the record is inserted without another look at the capacity, reporting the second victim |
| Sessions.SessionManager.Call | api/v1/sessions/router.py:81-87 | looks the session up; a probe takes a free lock in the same segment and does not wait for a held one |
| Sessions.SessionManager.AcquireRuns | api/v1/sessions/actions/router.py:92-95 | the separate task of a timed acquire takes the lock or queues, without looking at the closing flag again |
| Sessions.SessionManager.WaiterRuns | api/v1/sessions/actions/router.py:92-95 | a woken waiter takes the lock |
| Sessions.SessionManager.TimesOut | api/v1/sessions/actions/router.py:92-97 | a deadline cancels a pending wait, or ends a wait whose task never ran |
| Sessions.SessionManager.GivesUp | api/session_manager.py:274-277 | a cancelled wait leaves the queue and the request ends as busy |
| Sessions.SessionManager.BodyStarts | api/session_manager.py:278-281 | an action is counted, a delete hides the record and starts closing it |
| Sessions.SessionManager.AccountFor | api/v1/sessions/actions/router.py:104-137 | the idle clock moves on success and on a 404 only, the error counter on a 5xx or an unexpected fault only |
| Sessions.SessionManager.BodyEnds | api/v1/sessions/actions/router.py:138-139 | the lock is released on every outcome; a delete pops and counts first; a probe leaves the idle clock alone |
| Sessions.SessionManager.ResetCall | api/v1/admin/router.py:57-60 | a reset snapshots the registry and hides and closes its first record without taking a lock |
| Sessions.SessionManager.PurgeDone | api/v1/admin/router.py:57-62 | one record of a reset is popped and counted, and the next one hidden |
| Sessions.SessionManager.PassStarts | api/session_manager.py:287-305 | a pass skips everything hidden, locked or recently used and claims the first record left, or starts the mass drop over a dead engine |
| Sessions.SessionManager.ReaperLocks | api/session_manager.py:305-307 | the reaper gets a lock it had to wait for and starts closing |
| Sessions.SessionManager.ReapDone | api/session_manager.py:308-310 | the claimed session is popped, tombstoned and counted, its lock kept, and the same pass goes on with its first clock reading |
| SessionRuns.Resume | api/session_manager.py:209-319 | every segment that can run next, run on the manager object with the local variables of its task, takes it to the state of the transition system |
| SessionRuns.Run | api/session_manager.py:91-124 | a new manager driven through any run of events ends in the state of the transition system, which is thus reachable |
| Sessions.SessionManager.SweepDone | api/session_manager.py:289-294 | the mass drop goes on with the next record that is still registered |
| HttpErrors.FiveXxTestIsNarrower | api/http_errors.py:51-77 | which error classes become a 5xx and which one the dedicated test recognises |
| HttpErrors.CountedIffServerError | api/v1/sessions/actions/router.py:104-137 | the test for counting an error is true exactly of outcomes the caller sees as a 5xx, the test for the idle clock exactly of a 200 or 404, and never both |
| HttpErrors.StatusIff | api/http_errors.py:51-73 | which error classes become each status |
| NetworkLog.BoundedIsSuffix | api/engine/playwright_engine.py:174-183 | after any requests, responses and clears the bounded log equals the last entries of one that never drops any, statuses included |
| NetworkLog.AttributeFillsNewest | api/engine/playwright_engine.py:179-183 | a response fills exactly the newest pending entry with its URL, or nothing |
| NetworkLog.LogOnlyFills | api/engine/playwright_engine.py:174-183 | until a clear, no entry moves or vanishes from the unbounded log and no status once there changes |
| NetworkLog.LogBalances | api/engine/playwright_engine.py:174-183 | per URL, pending + filled = requests and filled + stray responses = responses; so pending = requests - responses if and only if no response was stray |
| NetworkLog.FilledNeverOutnumberResponses | api/engine/playwright_engine.py:174-183 | whatever overflowed or was cleared, filled entries of a URL never outnumber its responses |
| NetworkLog.NetworkBuffer.OnRequest | api/engine/playwright_engine.py:174-177 | the deque gains a pending entry and drops its oldest one when full |
| NetworkLog.NetworkBuffer.OnResponse | api/engine/playwright_engine.py:179-183 | the backward search updates in place exactly the entry the specification names |
| NetworkLog.NetworkBuffer.NetworkLog | api/engine/playwright_engine.py:517-521 | hands out the entries and forgets them only when asked to |
| NetworkLog.MatchesIff | api/engine/playwright_engine.py:532-541 | an entry matches a filter if and only if it matches each of its criteria on its own |
| NetworkLog.CriteriaSelect | api/engine/playwright_engine.py:532-541 | a pattern selects the URLs it occurs in, a type the entries of that type, a bound the filled entries on its side of it |
| NetworkLog.SelectedInOrder | api/engine/playwright_engine.py:532-541 | what the filter takes from the front of the log comes before what it takes from the rest |
| NetworkLog.NetworkBuffer.NetworkFilter | api/engine/playwright_engine.py:523-544 | exactly the matching entries, in log order; an entry without status fails any status bound |
| Locators.OneBudget | api/engine/playwright_engine.py:249-276 | what is left for the action is between 1 ms and the timeout, and with the time spent adds up to the timeout to the millisecond unless the minimum applied |
| Locators.VerbFitsTheBudget | api/engine/playwright_engine.py:237-332 | waiting and acting together exceed the timeout by at most the count and 1 ms |
| Locators.ReadyMeansOne | api/engine/playwright_engine.py:269-276 | success without `nth` means exactly one match when it was counted |
| Locators.NotFoundIff | api/engine/playwright_engine.py:251-470 | a single-element verb answers 404 if and only if no element matched, one awaited only to be attached never was, or the one that matched lacks the attribute asked for |
| Locators.AmbiguousIff | api/engine/playwright_engine.py:251-274 | more than one match is reported, with the number counted or quoted, if and only if `nth` did not choose among them or strict mode complained |
| Locators.TimedOutIff | api/engine/playwright_engine.py:253-265 | a wait is reported as timed out if and only if a single or chosen element was there but never reached the state, or the count itself timed out |
| Locators.BadSyntaxIff | api/engine/playwright_engine.py:86-95 | a css or xpath locator is called malformed if and only if building, waiting or counting failed for a reason other than a dead browser or a timed-out wait |
| Locators.ServerErrorIff | api/engine/playwright_engine.py:71-119 | a single-element verb is a 5xx if and only if the locator could not be built and the error was not classified, or was classified as a dead browser, or a call it reached reports one |
| Locators.ActionErrorStatus | api/engine/playwright_engine.py:325-332 | an action that runs out of time is a 409, one that lost its target a 500, one that matched too many a 409 with their number, any other error a 422 |
| Locators.UnknownStrategyIff | api/engine/playwright_engine.py:192-221 | a locator is turned away as invalid if and only if its strategy is none of the nine |
| Locators.LostTargetIff | api/engine/playwright_engine.py:71-80 | an error is a crash if and only if its message holds one of five phrases, in whatever case |
| Locators.GuardedBuildError | api/engine/playwright_engine.py:363-379 | `press_key` and `screenshot` classify a locator that could not be built, the other verbs let the error escape |
| Locators.DocumentedStatuses | api/engine/playwright_engine.py:325-506 | every combination of wait, count, `nth` and action ends in one documented status, and in 200 if and only if the element was resolved and the action found what it asked for |
| EvaluateSettled.Evaluate | api/engine/playwright_engine.py:580-612 | attempts are the leading errors that say the execution context was destroyed and the first other outcome, at most `retries` + 1; the result is that of the last attempt; the waits add up quadratically, 1.5 s for three retries; the guard is reached only for negative `retries` |
| EvaluateSettled.OnlyRacesAreRetried | api/engine/playwright_engine.py:604-607 | what is tried again is an error whose message says that the execution context was destroyed, and nothing else |
| EvaluateSettled.BackOffIsQuadratic | api/engine/playwright_engine.py:608 | k waits add up to 0.125 k (k + 1) seconds |
| Engine.PlaywrightStartsOnce | api/engine/playwright_engine.py:683-691 | however many sessions start at once, at most one start succeeds and no two are under way; a launched browser means Playwright is up |
| Engine.NoBrowserIsLost | api/engine/playwright_engine.py:704-742 | whichever step of `new_session` fails, each launched browser is with its call, with exactly one session, or being closed |
| Engine.RestartsAddUp | api/engine/playwright_engine.py:693-702 | restarts + marks used up = disconnects |
| Engine.MarkedIffEarlierMark | api/engine/playwright_engine.py:680-702 | before its first disconnect a browser is in the set if and only if somebody marked it |
| Engine.CountedIffUnmarked | api/engine/playwright_engine.py:693-702 | a first disconnect is counted as a crash if and only if nobody had marked the browser before |
| Engine.CountedIffNotClosed | api/engine/playwright_engine.py:649-702 | over every run, a first disconnect is counted as a crash if and only if nobody had called `close` on the browser |
| Engine.ClosedIffMarked | api/engine/playwright_engine.py:656-742 | over every run, a browser is closed on purpose if and only if it has been marked |
| Engine.OneStageAtATime | api/engine/playwright_engine.py:713-742 | each success takes a call one stage further with the same browser, and each failure once there is a browser marks and closes it |
| Engine.StartGoesWhere | api/engine/playwright_engine.py:683-691 | a call launches once Playwright is up, starts it if it holds the lock and nobody has, and fails if it could not |
| Engine.KeepsInv | api/engine/playwright_engine.py:680-747 | every segment of the engine keeps start, ownership and crash books consistent |
| PlaywrightEngines.PlaywrightEngine.NewSession | api/engine/playwright_engine.py:683-691 | the first segment: no lock once Playwright is up, else the lock, and the second look if it is free |
| PlaywrightEngines.PlaywrightEngine.LockRuns | api/engine/playwright_engine.py:688-691 | a woken caller looks again before it starts Playwright |
| PlaywrightEngines.PlaywrightEngine.StartDone | api/engine/playwright_engine.py:688-691 | the lock is released whether the start succeeded or not |
| PlaywrightEngines.PlaywrightEngine.LaunchDone | api/engine/playwright_engine.py:713-714 | a failed launch leaves nothing behind |
| PlaywrightEngines.PlaywrightEngine.SetupDone | api/engine/playwright_engine.py:715-742 | only the last success hands the browser over; any failure marks it and closes it |
| PlaywrightEngines.PlaywrightEngine.ReclaimDone | api/engine/playwright_engine.py:737-742 | a browser that was not handed over has been closed and its call fails |
| PlaywrightEngines.PlaywrightEngine.IsAlive | api/engine/playwright_engine.py:744-747 | the engine reports itself alive if and only if Playwright has been started, and as soon as there has been a browser |
| PlaywrightEngines.PlaywrightEngine.SessionClose | api/engine/playwright_engine.py:649-666 | the browser is marked before it is closed |
| PlaywrightEngines.PlaywrightEngine.OnDisconnected | api/engine/playwright_engine.py:693-702 | a marked browser uses up its mark, any other is counted; one that nobody ever marked always is |
| Service.MassDropIsInert | api/session_manager.py:288-294 | with this engine a non-empty registry means the engine reports itself alive, and no pass ever drops a session |
| Service.EverySessionOwnsOne | api/session_manager.py:225-253 | every session ever created owns exactly one browser |
| Service.NobodyShares | api/engine/playwright_engine.py:704-724 | no browser belongs to two sessions |
| Service.CrashOfAnOpenSessionIsCounted | api/engine/playwright_engine.py:649-702 | as long as `get` finds a session its browser was not closed on purpose, and every disconnect of it is counted as a crash |
| Service.FirstDisconnectIsCountedIff | api/engine/playwright_engine.py:649-702 | the first disconnect of a browser adds to the crash counter if and only if the service had not called `close` on it |
| Service.NoBrowserIsForgotten | api/session_manager.py:225-253 | every browser ever launched is being closed, with the call of a create that is still waiting for it, or behind an engine session that is closed, registered or with a create making room |
| Service.LaunchingIffOneCall | api/session_manager.py:225 | a create is launching if and only if it has a call of `new_session` pending, and it has only one |
| Service.CallsAreNeverBlocked | api/session_manager.py:225 | the call that can go on has a create that waits for it, so tying the two excludes no run of the engine |
| Service.StepKeepsWhole | api/session_manager.py:225-253 | every step of registry and engine together keeps both invariants and the link between engine sessions and browsers |
| Bits.MaskClearsLowBits | api/ssrf.py:88 | masking an address with a prefix clears its host bits and nothing else |
| Ssrf.MembershipIsAnInterval | api/ssrf.py:88 | mask membership is membership in the interval from a network's first address to its last |
| Ssrf.ListIsWellFormed | api/ssrf.py:15-44 | no listed network has host bits set or a prefix longer than its address |
| Ssrf.BlockedIffInARange | api/ssrf.py:77-88 | an address is blocked if and only if its plain form is special or lies in one of the listed intervals |
| Ssrf.MappedIsJudgedAsV4 | api/ssrf.py:70-88 | an IPv4-mapped address (section 2.5.5.2 of RFC 4291) is blocked exactly when its IPv4 form is, for all 2^32 of them |
| Ssrf.MappedEntryNeverDecides | api/ssrf.py:36 | no address is ever blocked by the list's own entry for mapped addresses |
| Ssrf.GatesAgreeUpToLookup | api/ssrf.py:91-174 | the route refuses a URL if and only if the interceptor blocks it or its host needed a lookup that gave a blocked answer; on literal hosts they agree |
| Ssrf.InterceptorStopsIff | api/ssrf.py:148-174 | of web URLs with a host the interceptor stops, unless the escape hatch is open, exactly those that name this machine or a blocked literal |
| Ssrf.RouteStopsIff | api/ssrf.py:91-145 | the route stops the same ones and the names with a blocked answer, always for the host |
| Ssrf.BadlyAddressedIsStopped | api/ssrf.py:100-113 | any other URL is stopped by both, whatever the settings |
| Ssrf.OffLimitsIsBlocked | api/ssrf.py:15-35 | every IPv4 address of the listed ranges, written as dotted quads, is blocked plain and mapped, whatever the standard library says of it |
| Ssrf.SearchFindsAny | api/ssrf.py:134-145 | the loop over the answers refuses if and only if some answer that parses is blocked |
| Ssrf.OnlyWebUrlsPass | api/ssrf.py:59-67 | whatever the settings, only http(s) URLs with a host pass, and outside `development` the escape hatch changes neither check |
| Ssrf.ReasonsPartition | api/ssrf.py:100-113 | exactly which URLs are refused as malformed and which for their scheme |
| Ssrf.MappedFormGainsNothing | api/ssrf.py:123-145 | respelling a literal host or any lookup answer as IPv4-mapped changes no verdict |

## Left out

- Shutdown (`close_all`, lifespan) and cancellation of a request in mid-await: they give up ownership by design.
- Exceptions inside a reaper's teardown (`api/session_manager.py:317-319`): every call it guards already has its errors suppressed.
- Uuid randomness and the retry loop of `api/session_manager.py:239-241`: ids are fresh by construction.
- Wall-clock fields, logging, message texts, metrics and uptime.
- `current_url`: what a probe reads and stores does not influence anything modelled.
- FastAPI routing, schemas, authentication, middleware and configuration.
- What Playwright and the page do: each call is an outcome, with a duration where time matters. Console log, storage, cookies, multi-element verbs and verbs called without a locator are not modelled.
- The strict-mode regular expression: the number it would parse is an input.
- The garbage collection of the set of marked browsers; a browser stays marked until it disconnects.
- An error other than a Playwright error while a session closes its context, which would skip closing the browser.
- `urlsplit`, name lookup and the standard library's opinion of an address are inputs; a lookup that fails with anything but an `OSError` is not modelled.
- Redirect hops and in-page requests, which neither check sees.
- Service.NoBrowserIsForgotten: says that `close` was called on an engine session, not that the browser process exits, because the outcome of a close is outside the model.
- RegistryTheorems.NobodyIsStuck: says that somebody can always move, and `RegistryProgress.UntimedWaitCanEnd` that a wait can end, not that the scheduler lets them, because fairness of the event loop is not modelled.
