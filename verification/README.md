# Verified protocols of the Xianyu integration back end

The back end connects Xianyu seller accounts to an admin console and to Chatwoot. Its hard
parts are small protocols over shared state. This project models them in Dafny and proves what
they keep over every run:

- **Orders** (`OrderPolicy`, `MtopWrite`, `OrderRepository`, `OrderProtocol`, `OrderGuarantees`,
  `OrderReplays`, `OrderEffects`, `OrderStranding`, `OrderService`): which actions an order offers, how a platform write is classified, the table of
  operations, and `execute` as an at-most-once protocol under interleaving, cancellation, jobs that
  outlive their call, and crashes.
- **Executor** (`Executor`): admission, start, finish, cancellation and shutdown of the bounded
  thread pool, with its counters.
- **IM session** (`RpcSession`, `PushQueue`, `Reconnect`): single-flight requests, the bounded
  push queue with its workers, and the reconnect loop.
- **Cookies** (`CookieText`, `CookieJar`, `RenewalExpiry`, `RenewalSchedule`): cookie
  text, the jar against a plain map, the confirmation of an expired login, the schedule.
- **Chatwoot bridge** (`ConversationMap`, `MessageMap`, `Recall`): the conversation map, the
  message map and the recall of messages over redeliveries and crashes.
- **Archives, pages, decoders** (`ProfileTree`, `Migration`, `Pagination`, `DecryptWorker`).

`Options` and `Text` are shared helpers.

Asynchronous code becomes a machine whose steps are the stretches between awaits; a run is any
list of events, and an event that cannot happen changes nothing. Where the source changes an
object in place there is a class whose methods are proved equal to those steps. Answers of the
platform, the database, the file system and the clock are parameters or events, so every theorem
holds for all of them.

`dafny verify dfyconfig.toml` checks the whole project.

Where the code does not do what one would expect, the code is modelled as it is and the exact
condition is proved:

- The token retry looks only for a marker in the answer. A write the platform accepted is reported
  as rejected exactly when the first answer is a success that mentions a marker and the second pass
  finds no token or is refused for good (`MtopWrite.RejectionHidesSuccessExactly`, with two answers
  in `MtopWrite.RejectionCanHideSuccess`).
- A write that the executor refuses to take is recorded as uncertain, although nothing was sent
  (`OrderGuarantees.RefusalIsRecordedUncertain`); a row recorded as uncertain had a write if and
  only if it was not refused (`OrderGuarantees.RecordedOutcomesAreTruthful`).
- The insert answers with another order's operation exactly when the order is known and idle and
  the key is taken (`OrderReplays.ForeignReplayExactly`); two orders of one account with one key
  come there (`OrderReplays.RaceHappens`). Callers that use a key of an account for one request only
  always get their own operation (`OrderReplays.OwnKeysReplayOwnOperation`).
- An operation in progress stays so whatever happens, and blocks its order for good, if and only if
  nothing holds it but a late write, whose answer nobody reads (`OrderStranding.NeverSettledExactly`).
  At most that late write still goes out for the order (`OrderStranding.StrandedForGood`,
  `OrderStranding.LateWriteAbandons`). Exactly these events bring a row there: a crash, a
  cancellation of its holder before the outcome is stored, a second cancellation before the write,
  and a store that raises while a refusal or an uncertain outcome is being stored
  (`OrderStranding.StrandedExactlyBy`); and an insert that commits after its call was cancelled
  twice (`OrderStranding.LateInsertAbandons`). A verdict being stored at a second cancellation is
  stored all the same (`OrderStranding.SecondCancelCommitsLate`).
- While its callable is not done, a caller is out of the executor if and only if it was cancelled
  twice (`Executor.SlotsAndCallers`, `Executor.SecondCancelLeavesEarly`).
- A local recall task without credentials unsettles a recall, which is then made again
  (`Recall.LocalTaskUnsettlesExactly`, `Recall.UnsettledRowIsRecalledAgain`).
- A recalled message gets a second snapshot exactly when one is due in another conversation
  (`Recall.SecondSnapshotExactly`, `Recall.TwoConversationsTwoSnapshots`).
- Rescheduling stamps the row, so a scan that pulls in the next attempt of an attempt left running
  makes it look fresh. Such an attempt is never started again by any number of scans if and only if
  its next attempt is beyond the limit and the scan comes after the limit
  (`RenewalSchedule.NeverStartedExactly`); an interrupted attempt without a next attempt gets there
  if and only if both its seed and the scan after the seeding one lie beyond the limit
  (`RenewalSchedule.InterruptedIsStuckExactly`), also when it is seeded before the limit
  (`RenewalSchedule.SeededBeforeTheLimitIsStuck`).
- A scheduled start keeps the interval after the last success unless a renewal finishes between
  the scan's decision and the trigger (`RenewalSchedule.StartsKeepTheIntervalExactly`, with a run in
  `RenewalSchedule.RenewalInTheGap`).
- A scan that finds no next attempt seeds one without regard to the window, and the next scan
  repairs it (`RenewalSchedule.SeededStatus`, `RenewalSchedule.SeedIsRepaired`); a retry delay
  holds only within the clamp's limit (`RenewalSchedule.RetryHoldsExactly`).
- Without a page limit the pagination loop ends only if some response ends it
  (`Pagination.EndlessNeverEnds`).
- The writer checks its limits per profile file, so an account file that alone exceeds them is
  written and then refused by the reader (`Migration.RoundTrip`,
  `Migration.OversizedAccountIsRefused`, `Migration.LongDetailsAreRefused`).
- A binding answers with an id that the table does not hold exactly when it read that id and another
  transaction rebound the conversation before its commit, because unchanged columns are not written
  (`ConversationMap.StaleAnswerExactly`, `ConversationMap.StaleAnswerHappens`).

## Model

| member | source | states |
|---|---|---|
| `OrderPolicy.OrderActionAvailability` | apps/api/xianyu_admin_api/order_action_policy.py:56-143 | one entry per action in the fixed order, enabled exactly when the order meets every condition of that action read off without the order of the checks |
| `OrderPolicy.EnabledExactlyWhenPermitted` | apps/api/xianyu_admin_api/order_action_policy.py:56-143 | the chain of refusal reasons ends in 'allowed' if and only if all conditions of the action hold, written out with the platform's own words |
| `OrderPolicy.AppliedActionIsDisabled` | apps/api/xianyu_admin_api/order_action_service.py:201-246 | applying a successful action to any order disables that action |
| `OrderPolicy.ClosingDisablesEverything` | apps/api/xianyu_admin_api/order_action_service.py:201-246 | closing a closeable order disables all six actions |
| `OrderPolicy.RemainingFalls` | apps/api/xianyu_admin_api/order_action_service.py:201-246 | a measure over status, active refund and rating strictly falls with every enabled action |
| `OrderPolicy.RemainingBoundsRun` | apps/api/xianyu_admin_api/order_action_service.py:201-246 | over a whole series of offered actions, their number plus the measure left never exceeds the first measure |
| `OrderPolicy.AtMostTwoActions` | apps/api/xianyu_admin_api/order_action_policy.py:56-143 | without a platform refresh at most two actions succeed on an order, and after two nothing is offered |
| `OrderPolicy.TwoActionsAreReached` | apps/api/xianyu_admin_api/order_action_policy.py:56-143 | the bound of two is attained |
| `MtopWrite.Session.PostMtop` | integrations/xianyu_core/product_publisher.py:473-546 | one post, a second one exactly when the first answer carries a token marker and the retry is allowed; the requests sent and the reply for every attempt outcome |
| `MtopWrite.Session.Execute` | integrations/xianyu_core/order_actions.py:215-340 | the verdict of a platform write and the requests it sent, for every pair of attempt outcomes |
| `MtopWrite.DoneExactly` | integrations/xianyu_core/order_actions.py:294-340 | success is reported if and only if the last answer is a success, or a shipping refusal says the order was already delivered |
| `MtopWrite.RejectedExactly` | integrations/xianyu_core/order_actions.py:395-421 | a rejection is reported if and only if validation failed, the token cookie was missing, or the last answer is a parsed refusal that is neither a category error nor, when shipping, an already-delivered notice |
| `MtopWrite.RejectedIsTruthful` | integrations/xianyu_core/product_publisher.py:522-546 | when a rejection is reported every request sent got a parsed answer, and none was sent or the last was refused or could not be retried |
| `MtopWrite.LostAnswerIsUndecided` | integrations/xianyu_core/product_publisher.py:777-808 | a transport failure, HTTP error or unparsable last answer is never success and never rejection |
| `MtopWrite.RejectionHidesSuccessExactly` | integrations/xianyu_core/product_publisher.py:522-546 | for all inputs: a rejection is reported although the platform accepted a request if and only if the first answer is a success with a token marker and the second pass finds no token or a deciding refusal |
| `MtopWrite.RejectionCanHideSuccess` | integrations/xianyu_core/product_publisher.py:522-546 | two answers with their own body text for which that happens |
| `MtopWrite.VerdictByText` | integrations/xianyu_core/order_actions.py:294-340 | every verdict, if and only if, by the literal words of the deciding answer: success exactly when some ret entry begins with SUCCESS::, already applied exactly for a refused shipping that mentions a delivery notice, rejected, unknown and broken likewise |
| `MtopWrite.RetryByText` | integrations/xianyu_core/product_publisher.py:534-546 | the pass that decides and the requests sent, by the literal token markers of the first answer |
| `MtopWrite.RefusalKindByText` | integrations/xianyu_core/product_publisher.py:782-793 | the kind of error of every refusal, by the literal category error and markers |
| `OrderRepository.ByKey` | apps/api/xianyu_admin_api/order_action_service.py:110-120 | a lookup finds a row with the key if and only if there is one |
| `OrderRepository.OrderActionRepository.constructor` | apps/api/xianyu_admin_api/order_action_service.py:52-53 | starts from the given orders and no operation |
| `OrderRepository.OrderActionRepository.GetByIdempotency` | apps/api/xianyu_admin_api/order_action_service.py:110-120 | finds exactly the row of this account and key |
| `OrderRepository.OrderActionRepository.Create` | apps/api/xianyu_admin_api/order_action_service.py:122-175 | the committed create: missing order, busy order, key already taken, or one new processing row; keeps keys unique and one processing row per order |
| `OrderRepository.OrderActionRepository.Finish` | apps/api/xianyu_admin_api/order_action_service.py:177-273 | the committed finish: the operation's outcome and, for an applied success, the order's new state; keeps both uniqueness rules |
| `OrderRepository.CreateKeepsTables` | apps/api/xianyu_admin_api/order_action_service.py:122-175 | a create keeps uniqueness and one processing row per order, and a created row had a free key and an idle order |
| `OrderRepository.FinishKeepsTables` | apps/api/xianyu_admin_api/order_action_service.py:177-273 | a finish keeps both rules and never changes which request a row records |
| `OrderRepository.FinishMeans` | apps/api/xianyu_admin_api/order_action_service.py:177-273 | for every order and row: what a success leaves of the order, column by column for each of the six actions, with all other columns and orders unchanged and the new status on the row; any other finish leaves the orders alone |
| `OrderProtocol.StepKeepsInv` | apps/api/xianyu_admin_api/order_action_service.py:362-521 | every await-to-await stretch of a call, every raised store call, refused write, first and second cancellation, late job and crash keeps the protocol invariant |
| `OrderGuarantees.AtMostOnce` | apps/api/xianyu_admin_api/order_action_service.py:362-521 | over every interleaving with cancellations, late jobs and crashes: one row per account and key, at most one platform write per key, at most one processing row per order, and each write was permitted by the refreshed order |
| `OrderGuarantees.RecordedOutcomesAreTruthful` | apps/api/xianyu_admin_api/order_action_service.py:447-516 | over every run: a failed row had a write, every request of it was answered and the last refused in the words of the platform (or none was sent); a succeeded row had a write whose deciding answer says SUCCESS:: or that the shipping was already delivered; an uncertain row had a write if and only if the executor did not refuse it |
| `OrderGuarantees.RefusalIsRecordedUncertain` | apps/api/xianyu_admin_api/order_action_service.py:505-516 | from every reachable state: a refused write is recorded as uncertain and answered as performed, with nothing sent for it |
| `OrderEffects.VerdictIsStored` | apps/api/xianyu_admin_api/order_action_service.py:447-516 | the status, the order and the stored order status that each verdict leaves |
| `OrderEffects.OrderChange` | apps/api/xianyu_admin_api/order_action_service.py:177-273 | over every step an order changes only when platform content for it is stored or an accepted write of it is recorded, and then as its action says |
| `OrderEffects.SucceededRowsMovedTheirOrder` | apps/api/xianyu_admin_api/order_action_service.py:201-246 | over every run a succeeded shipping row shows its order as shipped and a succeeded closing row as closed |
| `OrderReplays.ReplayNamesOwnOrderExactlyWithoutRace` | apps/api/xianyu_admin_api/order_action_service.py:372-382 | over every run, a replayed operation is the caller's own order and action if and only if it came from the key check and not from the insert |
| `OrderReplays.ForeignReplayExactly` | apps/api/xianyu_admin_api/order_action_service.py:122-175 | the insert of a prepared call answers with another order's operation if and only if the order is known and not busy and the key is taken in its account |
| `OrderReplays.OwnKeysReplayOwnOperation` | apps/api/xianyu_admin_api/order_action_service.py:362-444 | over every run whose arrivals never use one key of an account for two orders or actions, every replay names the caller's own order and action |
| `OrderReplays.RaceReplaysForeign` | apps/api/xianyu_admin_api/order_action_service.py:362-444 | for any two such requests on two orders of one account with one key: both pass the key check, and the second is answered with the first one's operation |
| `OrderReplays.RaceHappens` | apps/api/xianyu_admin_api/order_action_service.py:362-444 | a concrete run with such a reply |
| `OrderStranding.CrashAbandons` | apps/api/xianyu_admin_api/order_action_service.py:362-521 | after a crash every processing row is abandoned |
| `OrderStranding.AbandonedOrderIsNeverWrittenAgain` | apps/api/xianyu_admin_api/order_action_service.py:134-147 | over every later run a processing row that no call and no late job holds stays processing, and its order is never written again |
| `OrderStranding.NeverSettledExactly` | apps/api/xianyu_admin_api/order_action_service.py:134-147 | from every reachable state: a processing row is still processing after every run if and only if nothing holds it but a late write |
| `OrderStranding.StrandedForGood` | apps/api/xianyu_admin_api/order_action_service.py:134-147 | over every run such a row stays so, and its order gets no write but the late one of the row itself |
| `OrderStranding.LateWriteAbandons` | apps/api/xianyu_admin_api/executors.py:115-124 | a late write goes out for the first time and leaves its row abandoned |
| `OrderStranding.StrandedExactlyBy` | apps/api/xianyu_admin_api/order_action_service.py:447-516 | a row that can still be settled is stranded by an event if and only if it is a crash, a cancellation of its holder, a second cancellation before the write, or a store that raises while a refusal or an uncertain outcome is being stored |
| `OrderStranding.HolderSettles` | apps/api/xianyu_admin_api/order_action_service.py:447-516 | for every other holder a run that settles the row |
| `OrderStranding.LateInsertAbandons` | apps/api/xianyu_admin_api/executors.py:115-124 | an insert that runs after its call left abandons its row if and only if the order is known and idle and the key is free |
| `OrderStranding.SecondCancelCommitsLate` | apps/api/xianyu_admin_api/executors.py:115-124 | a call cancelled twice while its verdict is being stored leaves the order unlocked and the row processing, and the row is settled later |
| `OrderGuarantees.RowChange` | apps/api/xianyu_admin_api/order_action_service.py:122-273 | a step changes no row, adds the row of the call that inserts it, or changes the row that the stepping call holds |
| `OrderGuarantees.OwnershipChange` | apps/api/xianyu_admin_api/order_action_service.py:362-521 | an operation is only ever held by the call that inserted it |
| `OrderService.OrderActionService.Execute` | apps/api/xianyu_admin_api/order_action_service.py:362-521 | one undisturbed call: the database it leaves, its reply and the requests it sent |
| `OrderService.OrderActionService.ExecuteRefreshed` | apps/api/xianyu_admin_api/order_action_service.py:386-521 | the part after the preflight refresh, including the request's own checks |
| `OrderService.OrderActionService.WriteAndRecord` | apps/api/xianyu_admin_api/order_action_service.py:447-516 | one platform write of an opened operation and the record of its verdict |
| `OrderService.OrderActionService.RecordVerdict` | apps/api/xianyu_admin_api/order_action_service.py:447-516 | the outcome each verdict leaves on the row, as a late job would store it |
| `OrderService.ServeIsARun` | apps/api/xianyu_admin_api/order_action_service.py:362-521 | what the undisturbed method computes is the end state of one run of the concurrent protocol, so the theorems on all runs apply to it |
| `OrderService.ServeExactly` | apps/api/xianyu_admin_api/order_action_service.py:362-444 | the reply of an undisturbed call, if and only if, by the rows of its key, the permissions of the refreshed order, the request and the operations in progress |
| `OrderService.ServedRow` | apps/api/xianyu_admin_api/order_action_service.py:362-516 | the one row a performed request leaves, with its fields, outcome and effect on the order, and nothing else |
| `Executor.CountersAreExact` | apps/api/xianyu_admin_api/executors.py:53-124 | in every reachable state: workers and capacity are the clamped limits, 0 <= queued, 0 <= active <= workers, queued + active <= capacity, submitted = queued + active + completed + released without running, submitted + rejected = admissions asked for, failed <= completed |
| `Executor.SlotsAndCallers` | apps/api/xianyu_admin_api/executors.py:71-124 | each call's slot is released at most once and exactly once when it ran or cannot run; while a call's future is not done its caller has left if and only if it was cancelled at least twice |
| `Executor.CapacityIsRecovered` | apps/api/xianyu_admin_api/executors.py:106-124 | when all futures are done and all cancellations reported, nothing is counted as queued or active and the pool admits again |
| `Executor.CallRuns` | apps/api/xianyu_admin_api/executors.py:53-124 | a call's way through an open pool with room, with every counter, up to the caller's return |
| `Executor.ShutDownIsFinal` | apps/api/xianyu_admin_api/executors.py:157-158 | over every run after a shutdown no callable waits in the pool, and one handed to it is refused |
| `Executor.SecondCancelLeavesEarly` | apps/api/xianyu_admin_api/executors.py:115-124 | a second cancellation can let a caller leave while its callable still runs |
| `Executor.Partition` | apps/api/xianyu_admin_api/executors.py:53-124 | every admitted call is in exactly one of queued, active, completed, released without running |
| `Executor.BoundedExecutor.constructor` | apps/api/xianyu_admin_api/executors.py:24-51 | limits clamped as in the source and all counters zero |
| `Executor.BoundedExecutor.TryAdmit` | apps/api/xianyu_admin_api/executors.py:53-70 | admits exactly below capacity, with the counters it changes |
| `Executor.BoundedExecutor.ReleaseSlot` | apps/api/xianyu_admin_api/executors.py:74-77 | a slot still held is given back, one already given back is not |
| `Executor.BoundedExecutor.InvokeBegin` | apps/api/xianyu_admin_api/executors.py:71-79 | the locked entry of a worker thread, as a step of the machine |
| `Executor.BoundedExecutor.InvokeFinally` | apps/api/xianyu_admin_api/executors.py:80-93 | the locked exit of a worker thread, as a step of the machine |
| `Executor.BoundedExecutor.SubmitToPool` | apps/api/xianyu_admin_api/executors.py:95-104 | a submit that fails gives the slot back and the callable never runs |
| `Executor.BoundedExecutor.ReleaseCancelledSlot` | apps/api/xianyu_admin_api/executors.py:106-114 | a cancelled future gives its slot back once |
| `Executor.BoundedExecutor.ShutDown` | apps/api/xianyu_admin_api/executors.py:157-158 | shutdown cancels exactly the pending futures |
| `RpcSession.SingleFlight` | integrations/xianyu_core/client.py:1682-1714 | over every run: at most one pending request, owned by a call inside the guarded block; a returned frame has the request's mid; each future is settled at most once; online implies connected, by the order of the connection steps |
| `RpcSession.HealthAndSpacing` | integrations/xianyu_core/client.py:1682-1714 | over every run: the failure counter is the number of exception-ended calls since the last response, and each send starts at least 0.35 s after the previous call ended |
| `RpcSession.CallIsAnswered` | integrations/xianyu_core/client.py:1682-1714 | an undisturbed call returns the frame with its mid, leaves nothing registered and resets the failures |
| `RpcSession.EarlyCallSleeps` | integrations/xianyu_core/client.py:1689-1692 | an early call sleeps until 0.35 s after the end of the last one, and then begins |
| `RpcSession.CallEnds` | integrations/xianyu_core/client.py:1697-1714 | how failed sends, timeouts, a missing socket and cancellations end a call, with the lock, the entry and the counters |
| `RpcSession.DropFailsTheCall` | integrations/xianyu_core/client.py:1812-1850 | the end of a connection fails the waiting call and no other |
| `RpcSession.FrameMeans` | integrations/xianyu_core/client.py:1788-1796 | a frame settles the future that waits for its mid, once, and touches nothing else |
| `RpcSession.StepKeepsInv` | integrations/xianyu_core/client.py:1682-1714 | sends, responses, timeouts, cancellations and dropped connections keep the session invariant |
| `RpcSession.Session.constructor` | integrations/xianyu_core/client.py:1682-1714 | a session with no call, offline |
| `RpcSession.Session.EnterSendAndWait` | integrations/xianyu_core/client.py:1689-1692 | taking the lock and computing the throttle |
| `RpcSession.Session.RegisterAndSend` | integrations/xianyu_core/client.py:1693-1696 | one entry for the request's mid |
| `RpcSession.Session.FinishWith` | integrations/xianyu_core/client.py:1697-1714 | the entry is removed and the counters updated for every way a call can end |
| `RpcSession.Session.ResolvePendingResponse` | integrations/xianyu_core/client.py:1788-1796 | a frame is consumed exactly when its mid is pending, and settles that future only if it is not done |
| `RpcSession.Session.FailFutures` | integrations/xianyu_core/client.py:1846-1850 | exactly the pending, unsettled futures get the connection error |
| `RpcSession.Session.FailPending` | integrations/xianyu_core/client.py:1812-1850 | all unsettled futures fail and no entry is left |
| `PushQueue.QueueIsRecentSuffix` | integrations/xianyu_core/client.py:1716-1743 | over every run: length at most 1000; the queue is a contiguous suffix of this connection's frames; enqueued = taken + dropped + drained + queued; in-flight = workers holding a frame, at most four, no frame held twice |
| `PushQueue.ClampNeverFires` | integrations/xianyu_core/client.py:1435-1458 | whenever a worker finishes, the in-flight counter is positive, so the clamp at zero changes nothing |
| `PushQueue.ArrivalMeans` | integrations/xianyu_core/client.py:1716-1743 | an arriving frame is handled at once without workers, appended below 1000 frames, and otherwise appended in place of the oldest |
| `PushQueue.ConnectionCycle` | integrations/xianyu_core/client.py:1435-1458 | a connection starts four idle workers, and its cleanup empties the queue as drained |
| `PushQueue.WorkerCycle` | integrations/xianyu_core/client.py:1450-1458 | a worker takes the oldest frame and lets it go, counting it while it holds it |
| `PushQueue.PushSide.constructor` | integrations/xianyu_core/client.py:1435-1440 | an empty queue and idle workers |
| `PushQueue.PushSide.PutNowait` | integrations/xianyu_core/client.py:1735-1743 | appends; needs room, which its caller always makes |
| `PushQueue.PushSide.HandlePush` | integrations/xianyu_core/client.py:1716-1743 | drops the oldest frame exactly when full, then appends |
| `PushQueue.PushSide.WorkerTakes` | integrations/xianyu_core/client.py:1435-1450 | a worker takes the oldest frame |
| `PushQueue.PushSide.WorkerFinishes` | integrations/xianyu_core/client.py:1450-1458 | a worker lets its frame go and the counter falls by one |
| `PushQueue.PushSide.Drain` | integrations/xianyu_core/client.py:1840-1845 | cleanup empties the queue and records every frame as drained |
| `Reconnect.RunLoop` | integrations/xianyu_core/client.py:1338-1427 | the loop with its local variables computes the waits, counts and ending of the specification for every list of rounds, also those counted as connections without a reset of the delay |
| `Reconnect.WaitsAndCounts` | integrations/xianyu_core/client.py:1338-1427 | over every run each wait is one of 1, 2, 4, 8, 16, 32, 60 s and the reconnect count is max(0, connections - 1) |
| `Reconnect.NoAttemptAfterTerminal` | integrations/xianyu_core/client.py:1338-1427 | no connection is tried after a risk-control or authentication-expired exception |
| `Reconnect.PlainFailuresBackOff` | integrations/xianyu_core/client.py:1338-1427 | after n rounds that fail before the reset, counted as connections or not, the waits were min(2^i, 60) for i below n, and n attempts are counted |
| `Reconnect.ResetActsOneRoundLate` | integrations/xianyu_core/client.py:1342-1427 | a reset on going online affects the wait after the next one, not the current one |
| `Reconnect.NewCredentialsRestart` | integrations/xianyu_core/client.py:1408-1427 | whatever happened before, the failure after a round that ended with new credentials waits one second |
| `Reconnect.RoundCounts` | integrations/xianyu_core/client.py:1338-1427 | what one round adds to the tries, connections and attempts, and which endings end the loop |
| `CookieText.ParseCookieHeader` | apps/api/xianyu_admin_api/cookie_renewal.py:473-483 | the parsing loop computes the specification for every string |
| `CookieText.AddItem` | apps/api/xianyu_admin_api/cookie_renewal.py:475-482 | one item of the header |
| `CookieText.ParseExactly` | apps/api/xianyu_admin_api/cookie_renewal.py:473-483 | for every string, name and value: the pair is in the dictionary if and only if the last item that names the cookie gives it that value |
| `CookieText.PutKnown` | apps/api/xianyu_admin_api/cookie_renewal.py:481-482 | assigning to a known name replaces the value in its place |
| `CookieText.LiveIsWritten` | apps/api/xianyu_admin_api/cookie_renewal.py:519-520 | a name with a value is written name=value, separated by a semicolon and a blank |
| `CookieText.DeadIsNotWritten` | apps/api/xianyu_admin_api/cookie_renewal.py:519-520 | an entry without a name or a value is not written |
| `CookieText.ParseIsWellFormed` | apps/api/xianyu_admin_api/cookie_renewal.py:473-483 | for every string, parsed names are distinct and non-empty and no name or value holds separators, line breaks or outer blanks |
| `CookieText.ParseSerializeRoundTrip` | apps/api/xianyu_admin_api/cookie_renewal.py:473-520 | for every string s, parse(serialize(parse(s))) is parse(s) without the empty values |
| `CookieJar.Session.CookieMap` | apps/api/xianyu_admin_api/cookie_renewal.py:506-516 | the jar as a plain map: the last entry of the best domain per name, empty values left out |
| `CookieJar.ViewExactly` | apps/api/xianyu_admin_api/cookie_renewal.py:506-516 | for every jar, name and value: the plain map has it if and only if the deciding entry has that value, the last one of the best of home domain, other goofish.com domains, and the rest |
| `CookieJar.Session.ClearName` | apps/api/xianyu_admin_api/cookie_renewal.py:486-503 | all entries of a name go, whatever their domain and path, and the plain map loses exactly that name |
| `CookieJar.Session.SetHome` | apps/api/xianyu_admin_api/cookie_renewal.py:486-503 | one home entry, and the plain map gains exactly that value |
| `CookieJar.Session.FlattenOne` | apps/api/xianyu_admin_api/cookie_renewal.py:486-503 | one response cookie assigns or deletes one name of the plain map |
| `CookieJar.Session.FlattenResponseCookies` | apps/api/xianyu_admin_api/cookie_renewal.py:486-503 | for every jar and response the plain map afterwards is the old one updated left to right, deleting on empty or expired |
| `CookieJar.ViewOfWithout` | apps/api/xianyu_admin_api/cookie_renewal.py:486-516 | clearing a name in the jar is deleting it from the plain map |
| `CookieJar.ViewOfReplaced` | apps/api/xianyu_admin_api/cookie_renewal.py:486-516 | clearing a name and listing one home entry anywhere is assigning it in the plain map |
| `CookieJar.AssignAllDecidedByLast` | apps/api/xianyu_admin_api/cookie_renewal.py:486-503 | the last response cookie of a name decides its fate |
| `CookieJar.AssignAllKeepsOthers` | apps/api/xianyu_admin_api/cookie_renewal.py:486-503 | names the response does not mention keep their value |
| `RenewalExpiry.StepKeepsInv` | apps/api/xianyu_admin_api/cookie_renewal_manager.py:105-183 | reports, triggers, task ends, probes, logins and restarts keep the manager's invariant |
| `RenewalExpiry.VerdictsAreConfirmed` | apps/api/xianyu_admin_api/cookie_renewal_manager.py:320-356 | over every run: at most one live renewal task; verdicts given in recoveries never outnumber the reports other than the IM runtime's before them; any other verdict stands on a stored suspicion; a keepalive report follows a lost login or two failed probes; the stored error is auth_expired only after a verdict |
| `RenewalExpiry.VerdictFollowsFailure` | apps/api/xianyu_admin_api/cookie_renewal_manager.py:320-356 | every verdict has an earlier suspicion or non-IM report on record |
| `RenewalExpiry.ImReportsAreInert` | apps/api/xianyu_admin_api/cookie_renewal_manager.py:149-183 | deleting all IM-runtime reports from any run leaves the same status, tasks, memory and probes |
| `RenewalExpiry.RenewalRuns` | apps/api/xianyu_admin_api/cookie_renewal_manager.py:105-147 | an undisturbed renewal for every trigger, stored error and end: what it stores, and that it leaves no task |
| `RenewalExpiry.ReportMeans` | apps/api/xianyu_admin_api/cookie_renewal_manager.py:149-183 | a report goes on to a recovery if and only if it is not the IM runtime's, the login is not known to be lost and no renewal runs |
| `RenewalExpiry.ProbeMeans` | apps/api/xianyu_admin_api/cookie_renewal_manager.py:506-639 | when a keepalive starts, and what each end of its two probes reports |
| `RenewalExpiry.ClearingMeans` | apps/api/xianyu_admin_api/cookie_renewal_manager.py:185-197 | a login or a new cookie clears the stored error and trigger, a validation the error alone; a restart forgets what is not stored |
| `RenewalExpiry.CookieRenewalManager.constructor` | apps/api/xianyu_admin_api/cookie_renewal_manager.py:42-80 | the initial manager |
| `RenewalExpiry.CookieRenewalManager.HandleAuthExpired` | apps/api/xianyu_admin_api/cookie_renewal_manager.py:149-183 | which reports go on to trigger a recovery |
| `RenewalExpiry.CookieRenewalManager.TriggerUnderLock` | apps/api/xianyu_admin_api/cookie_renewal_manager.py:116-133 | the stretch that looks for a running task and reads the stored error |
| `RenewalExpiry.CookieRenewalManager.BeginRenewal` | apps/api/xianyu_admin_api/cookie_renewal_manager.py:133-138 | the new attempt is stored and the old error remembered |
| `RenewalExpiry.CookieRenewalManager.StartExecute` | apps/api/xianyu_admin_api/cookie_renewal_manager.py:139-147 | the task enters the table |
| `RenewalExpiry.CookieRenewalManager.FinishExecute` | apps/api/xianyu_admin_api/cookie_renewal_manager.py:320-356 | the stored error for every end of a renewal |
| `RenewalExpiry.CookieRenewalManager.Discarded` | apps/api/xianyu_admin_api/cookie_renewal_manager.py:499-504 | only the table's own task clears the memory |
| `RenewalExpiry.CookieRenewalManager.StartKeepaliveIfDue` | apps/api/xianyu_admin_api/cookie_renewal_manager.py:506-532 | no probe beside a renewal or another probe |
| `RenewalExpiry.CookieRenewalManager.ProbeReturned` | apps/api/xianyu_admin_api/cookie_renewal_manager.py:534-639 | a suspicion is probed again; a lost login or a second failure is reported |
| `RenewalExpiry.CookieRenewalManager.Shutdown` | apps/api/xianyu_admin_api/cookie_renewal_manager.py:88-103 | memory is lost, the stored status is not |
| `RenewalSchedule.WindowEnd` | apps/api/xianyu_admin_api/cookie_renewal_manager.py:460-481 | the quiet window ends between success + interval and success + interval + jitter + 5 s |
| `RenewalSchedule.WindowEndExactly` | apps/api/xianyu_admin_api/cookie_renewal_manager.py:460-481 | the window ends at the time recorded with the latest success when that lies within the interval, the jitter and five seconds, and otherwise the bare interval after the success |
| `RenewalSchedule.DrawnTimeIsKept` | apps/api/xianyu_admin_api/cookie_renewal_manager.py:400-433 | over every list of scans before the time drawn with the latest success, none starts a renewal or touches the row |
| `RenewalSchedule.DrawnTimeStarts` | apps/api/xianyu_admin_api/cookie_renewal_manager.py:414-433 | a scan starts the renewal of such a settled row if and only if it comes at or after the drawn time |
| `RenewalSchedule.RenewedRowIsDrawnExactly` | apps/api/xianyu_admin_api/cookie_renewal_manager.py:255-276 | a renewal stores such a row if and only if the jitter covers the time from the draw to the record of the success |
| `RenewalSchedule.NextExactly` | apps/api/xianyu_admin_api/cookie_renewal_manager.py:400-431 | the next attempt every scan leaves, with the clamp and the deferral |
| `RenewalSchedule.MakeConfigIsLegal` | apps/api/xianyu_admin_api/cookie_renewal_manager.py:64-71 | the interval and scan period with their floors |
| `RenewalSchedule.StartNeedsWindow` | apps/api/xianyu_admin_api/cookie_renewal_manager.py:414-433 | whatever status the scan last read, it starts a renewal only when now >= last success + interval |
| `RenewalSchedule.StartExactly` | apps/api/xianyu_admin_api/cookie_renewal_manager.py:382-446 | a scan starts a renewal if and only if the account qualifies, the window is over, and a settled row is due or beyond the limit, while an attempt left running is five minutes old and not beyond the limit |
| `RenewalSchedule.StartedIsDue` | apps/api/xianyu_admin_api/cookie_renewal_manager.py:400-433 | a start leaves the success time untouched and the next attempt of a settled row due |
| `RenewalSchedule.StuckStaysStuck` | apps/api/xianyu_admin_api/cookie_renewal_manager.py:400-412 | a scan of an attempt left running with a next attempt beyond the limit, after the limit, starts nothing and leaves the row in that condition |
| `RenewalSchedule.StuckIsNeverStarted` | apps/api/xianyu_admin_api/cookie_renewal_manager.py:382-446 | over every list of scans such an attempt is never started |
| `RenewalSchedule.UnstuckIsStarted` | apps/api/xianyu_admin_api/cookie_renewal_manager.py:382-446 | any other attempt left running is started by the first scan or by one after its stamps are five minutes old and the window is over |
| `RenewalSchedule.NeverStartedExactly` | apps/api/xianyu_admin_api/cookie_renewal_manager.py:382-446 | an attempt left running is started by no list of scans of the loop, a scan period apart, if and only if the first scan finds it stuck |
| `RenewalSchedule.InterruptedIsStuckExactly` | apps/api/xianyu_admin_api/cookie_renewal_manager.py:372-412 | an interrupted attempt without a next attempt is started by no such list if and only if both the seed and the earliest next scan lie beyond the limit |
| `RenewalSchedule.SeededBeforeTheLimitIsStuck` | apps/api/xianyu_admin_api/cookie_renewal_manager.py:372-412 | a concrete row seeded five seconds before the limit that no later scan starts |
| `RenewalSchedule.OpenWindowIsKept` | apps/api/xianyu_admin_api/cookie_renewal_manager.py:400-431 | while the window is open a scan leaves the next attempt within one second of the window's end and, but for the time stamp of a write, everything else as it was; it writes exactly when the next attempt is off by more than a second or beyond the limit |
| `RenewalSchedule.SeededStatus` | apps/api/xianyu_admin_api/cookie_renewal_manager.py:392-399 | with no next attempt stored the seed lies near the window's end if and only if the draw puts it there |
| `RenewalSchedule.SeedCanMissTheWindow` | apps/api/xianyu_admin_api/cookie_renewal_manager.py:392-399 | a concrete seed an hour before the window's end |
| `RenewalSchedule.SeedIsRepaired` | apps/api/xianyu_admin_api/cookie_renewal_manager.py:382-431 | the following scan puts such a seed within one second of the window's end |
| `RenewalSchedule.FailureIsPutOff` | apps/api/xianyu_admin_api/cookie_renewal_manager.py:483-497 | a failure inside the window is put at the window's end; outside it the first three are retried after 60, 300 and 1800 s and later ones a regular time later |
| `RenewalSchedule.RetryHoldsExactly` | apps/api/xianyu_admin_api/cookie_renewal_manager.py:400-412 | a stored retry time holds back earlier scans if and only if it lies within the limit; beyond it the next scan starts at once |
| `RenewalSchedule.StartsKeepTheIntervalExactly` | apps/api/xianyu_admin_api/cookie_renewal_manager.py:105-147 | over every history of scans, triggers, rewrites of the row, renewals, restarts and cookie changes: a scheduled start comes at least the interval after the last success if no renewal finished since the decision; and when decision and start are closer than the interval, only then |
| `RenewalSchedule.RenewalInTheGap` | apps/api/xianyu_admin_api/cookie_renewal_manager.py:112-138 | a concrete history in which a scheduled renewal starts one second after a success |
| `RenewalSchedule.ScheduledRound` | apps/api/xianyu_admin_api/cookie_renewal_manager.py:382-433 | one undisturbed round: the scan decides, the trigger starts, the success stores the next drawn time |
| `RenewalSchedule.OtherWriters` | apps/api/xianyu_admin_api/store.py:3355-3370 | what renewals begun elsewhere, stored failures, restarts and cookies entered by hand do to the row and the task |
| `RenewalSchedule.Scheduler.Reschedule` | apps/api/xianyu_admin_api/store.py:3830-3851 | the next attempt of the row and its time stamp change, and no other row |
| `RenewalSchedule.Scheduler.ScanAccount` | apps/api/xianyu_admin_api/cookie_renewal_manager.py:384-433 | one account's turn: the stored status afterwards and what is started |
| `RenewalSchedule.Scheduler.ScanDueAccounts` | apps/api/xianyu_admin_api/cookie_renewal_manager.py:382-433 | the whole pass: every row afterwards, and an account is started if and only if its stored row meets the start condition |
| `ConversationMap.ConversationRepository.CreateConversationMap` | apps/api/xianyu_admin_api/chatwoot.py:2024-2094 | the committed create, rebind or rejection, keeping the map injective |
| `ConversationMap.ConversationRepository.GetByRemoteGlobal` | apps/api/xianyu_admin_api/chatwoot.py:1833-1844 | finds the one conversation that holds the remote id |
| `ConversationMap.TransactFacts` | apps/api/xianyu_admin_api/chatwoot.py:2024-2094 | a transaction on a possibly stale read binds if and only if the id was free when read, is free when it has to be written, and the row did not appear in between; only changed columns are written, and no other row |
| `ConversationMap.BoundColumns` | apps/api/xianyu_admin_api/chatwoot.py:2049-2076 | the answered and the stored row column by column |
| `ConversationMap.StaleAnswerExactly` | apps/api/xianyu_admin_api/chatwoot.py:2060-2094 | the answer names an id other than the stored one if and only if the conversation was read with that id and rebound before the commit |
| `ConversationMap.StaleAnswerHappens` | apps/api/xianyu_admin_api/chatwoot.py:2024-2094 | two transactions for which that happens |
| `ConversationMap.RunKeepsInjective` | apps/api/xianyu_admin_api/chatwoot.py:2024-2094 | over every interleaving the map stays injective and loses no conversation |
| `ConversationMap.LookupsAreInverse` | apps/api/xianyu_admin_api/chatwoot.py:1833-1844 | over every interleaving, the remote lookup gives a conversation if and only if the local lookup gives that remote id |
| `ConversationMap.RebindingFreesOldId` | apps/api/xianyu_admin_api/chatwoot.py:2024-2094 | rebinding frees the old id and makes the new one lead to the conversation |
| `Recall.StepKeepsInv` | apps/api/xianyu_admin_api/chatwoot.py:4026-4267 | each stored write of the delete handler, each crash and each local recall task keeps the recall invariant |
| `Recall.FinalImpliesSnapshot` | apps/api/xianyu_admin_api/chatwoot.py:4026-4267 | over every run with crashes and redeliveries a final state implies the snapshot note, and no conversation has a snapshot twice |
| `Recall.OneSnapshotPerMessage` | apps/api/xianyu_admin_api/chatwoot.py:3527-3546 | over every run, a message whose rows and deliveries name one conversation gets at most one snapshot, whatever the other messages do |
| `Recall.SecondSnapshotExactly` | apps/api/xianyu_admin_api/chatwoot.py:3527-3546 | a step gives a message a second snapshot if and only if it ensures one in a conversation other than the one that holds the first |
| `Recall.TwoConversationsTwoSnapshots` | apps/api/xianyu_admin_api/chatwoot.py:3527-3546 | a concrete run with two snapshots of one message |
| `Recall.SettledIsNeverRecalledAgain` | apps/api/xianyu_admin_api/chatwoot.py:4026-4267 | over every run a row in a pending or final recall state is never recalled again, unless a credential-less local task meets it while it is not recalled |
| `Recall.RecalledIsSpared` | apps/api/xianyu_admin_api/chatwoot.py:3628-3675 | no local task disturbs a recalled row, over every run |
| `Recall.VerdictIsKept` | apps/api/xianyu_admin_api/chatwoot.py:4026-4267 | over every such run a positive verdict stays positive; if no local recall of this row takes part, every verdict and final state is unchanged |
| `Recall.LocalTaskUnsettlesExactly` | apps/api/xianyu_admin_api/chatwoot.py:3628-3675 | a local recall task unsettles a row if and only if it runs without credentials on a mirrored row not yet recalled |
| `Recall.UnsettledRowIsRecalledAgain` | apps/api/xianyu_admin_api/chatwoot.py:3628-3675 | a concrete run in which such a row is recalled although its recall was settled |
| `Recall.Bridge.SettleItem` | apps/api/xianyu_admin_api/chatwoot.py:4026-4267 | a known verdict is taken over, otherwise the runtime is asked once and its answer stored as pending |
| `Recall.AsksAre` | apps/api/xianyu_admin_api/chatwoot.py:4026-4267 | the keys recalled are, in order and once each, exactly those of the items that no recall had settled and for which the runtime was asked |
| `Recall.DeliveredStates` | apps/api/xianyu_admin_api/chatwoot.py:4026-4267 | the final state of every row of a delivery, by the state it was read with and the answer |
| `Recall.Bridge.SettleNext` | apps/api/xianyu_admin_api/chatwoot.py:4026-4267 | one pass of the first loop with the recalls, verdicts and rows it adds to |
| `Recall.Bridge.SettleItems` | apps/api/xianyu_admin_api/chatwoot.py:4026-4267 | the first loop: only unsettled rows are recalled, in order, and all verdicts are those of the rows or the runtime |
| `Recall.Bridge.FinalizeItems` | apps/api/xianyu_admin_api/chatwoot.py:4026-4267 | the last loop: every row of the message is final and no other row changed |
| `Recall.Bridge.FinalizeNext` | apps/api/xianyu_admin_api/chatwoot.py:4026-4267 | one pass of the last loop, as a step of the machine |
| `Recall.Bridge.Close` | apps/api/xianyu_admin_api/chatwoot.py:4026-4267 | the end of a delivery: finished, left for the next one, or concluded |
| `Recall.Bridge.EnsureNote` | apps/api/xianyu_admin_api/chatwoot.py:3527-3546 | the note exists afterwards and is not created twice |
| `Recall.Bridge.SettleListed` | apps/api/xianyu_admin_api/chatwoot.py:4026-4267 | the first loop as the delivery uses it: verdicts on the rows, recalls made, and a snapshot due exactly when some item was not final |
| `Recall.Bridge.Conclude` | apps/api/xianyu_admin_api/chatwoot.py:4026-4267 | the snapshot and the final states of a delivery with something pending |
| `Recall.Bridge.HandleDelete` | apps/api/xianyu_admin_api/chatwoot.py:4026-4267 | a delivery fails if and only if a snapshot is due and it names no conversation; otherwise all rows of the message are final and a due snapshot is there; settled rows keep their verdict and only unsettled rows are recalled; rows, notes and recalls are those of one run of the machine |
| `MessageMap.MessageRepository.RecordMessageMap` | apps/api/xianyu_admin_api/chatwoot.py:2096-2136 | updates the first row of the same message or appends one |
| `MessageMap.RecordFacts` | apps/api/xianyu_admin_api/chatwoot.py:2096-2136 | which local and remote ids are known after a record, for every table |
| `MessageMap.RecordKeepsUnique` | apps/api/xianyu_admin_api/chatwoot.py:2096-2136 | one row per local message is kept |
| `MessageMap.PiecesFacts` | apps/api/xianyu_admin_api/chatwoot.py:4274-4407 | forwarding an agent message in pieces records every piece and the remote id |
| `MessageMap.NoEcho` | apps/api/xianyu_admin_api/chatwoot.py:3627-3763 | over every run of tasks: one row per local message, a local message is posted at most once and never if forwarding created it, an agent message is forwarded at most once and never if one of our posts created it |
| `MessageMap.PostHasNoEcho` | apps/api/xianyu_admin_api/chatwoot.py:3627-3763 | an unknown local message is posted, and after any later tasks neither posting it again nor forwarding its copy does anything |
| `MessageMap.ForwardHasNoEcho` | apps/api/xianyu_admin_api/chatwoot.py:4274-4407 | an unknown agent message is forwarded, and after any later tasks neither forwarding it again nor posting its pieces does anything |
| `MessageMap.RejectionIsFinal` | apps/api/xianyu_admin_api/chatwoot.py:4274-4407 | a refused voice message is remembered and never forwarded |
| `ProfileTree.WalkExactly` | apps/api/xianyu_admin_api/account_migrations.py:408-441 | the pruned walk yields exactly the regular files not under an excluded directory and not of an excluded name, with their paths and contents |
| `ProfileTree.KeptExactly` | apps/api/xianyu_admin_api/account_migrations.py:45-63 | which paths are kept, by the literal names of caches, locks and logs |
| `ProfileTree.WalkDistinct` | apps/api/xianyu_admin_api/account_migrations.py:408-441 | no path is yielded twice |
| `ProfileTree.FilesAreLeaves` | apps/api/xianyu_admin_api/account_migrations.py:408-441 | no file lies below another |
| `Migration.WriteExactly` | apps/api/xianyu_admin_api/account_migrations.py:386-441 | the writer accepts if and only if it adds no profile file or all counts and bytes together fit, and then the archive is the header and the files in order |
| `Migration.RoundTrip` | apps/api/xianyu_admin_api/account_migrations.py:386-596 | for every account, profile and limits: a written archive is accepted under the same limits if and only if the account JSON is at most 1 MiB and fits, the identities agree and the profile flag is right; then the account, files, size and count come back exactly |
| `Migration.CookieUserIs` | apps/api/xianyu_admin_api/account_migrations.py:108-114 | the identity of a cookie is the value of the first part that assigns one to unb |
| `Migration.NoCookieUser` | apps/api/xianyu_admin_api/account_migrations.py:108-114 | and there is none if no part does |
| `Migration.ReturnedFile` | apps/api/xianyu_admin_api/account_migrations.py:408-441 | for every path and content: the extracted profile holds that file if and only if the profile has it and neither a directory on its way nor its name is excluded |
| `Migration.ReturnedFiles` | apps/api/xianyu_admin_api/account_migrations.py:590-596 | nothing else comes back, and the reported count is the number of extracted files |
| `Migration.NamesSurvive` | apps/api/xianyu_admin_api/account_migrations.py:434-436 | writing all member names as text joined with '/' and splitting them again gives the archive back |
| `Migration.TextRoundTrip` | apps/api/xianyu_admin_api/account_migrations.py:386-596 | the round trip through the text names of the members |
| `Migration.OversizedAccountIsRefused` | apps/api/xianyu_admin_api/account_migrations.py:386-441 | for all limits and encoders: an account without a profile whose JSON is over 1 MiB is written and then refused |
| `Migration.LongDetailsAreRefused` | apps/api/xianyu_admin_api/account_migrations.py:386-441 | a concrete account whose own text is one letter over 1 MiB |
| `Migration.AcceptedIsSafe` | apps/api/xianyu_admin_api/account_migrations.py:536-596 | for every archive whatsoever: if it is accepted all files lie below the profile directory, none below another, limits hold, count and size are those of its profile members and the identities agree |
| `Migration.AcceptedMembers` | apps/api/xianyu_admin_api/account_migrations.py:547-578 | for every archive: if it is accepted all members have relative names without "..", and are the profile directory, the account file or profile files; it has a profile if and only if one of them makes the directory |
| `Migration.AbsoluteNamesAreRefused` | apps/api/xianyu_admin_api/account_migrations.py:548-550 | an archive with a name that starts with a slash is refused |
| `Migration.ReadMemberIsSafe` | apps/api/xianyu_admin_api/account_migrations.py:547-578 | every iteration of the reader keeps the extraction safe |
| `Migration.WriteCompressedPayload` | apps/api/xianyu_admin_api/account_migrations.py:386-441 | the loop over the walk computes the writer's specification |
| `Migration.WriteDirectory` | apps/api/xianyu_admin_api/account_migrations.py:415-441 | the loop over one directory's files, with both limits checked per file |
| `Migration.ReadEntry` | apps/api/xianyu_admin_api/account_migrations.py:547-578 | one member: refused, counted or stored, with the checks in their order |
| `Migration.ExtractPayload` | apps/api/xianyu_admin_api/account_migrations.py:536-596 | the loop over the members computes the reader's specification, with its error cases in order |
| `Pagination.ListBoughtOrders` | integrations/xianyu_core/buyer_order_operations.py:73-179 | for every sequence of responses: the result is the parsed pages without later duplicate ids, each page carries the cursor of the one before, pages stay within the limit and the bound, complete if and only if the last page was not a repeat and announced no more, and errors exactly on a failed response |
| `Pagination.FollowPages` | integrations/xianyu_core/buyer_order_operations.py:94-159 | the loop itself, with its requests, stopping at the first response that does not call for another page |
| `Pagination.Turn` | integrations/xianyu_core/buyer_order_operations.py:94-153 | one iteration: a failed response and a page that calls for no other end the loop with their outcome |
| `Pagination.Judge` | integrations/xianyu_core/buyer_order_operations.py:125-153 | the checks after a page: go on exactly when all conditions to continue hold |
| `Pagination.ReadPage` | integrations/xianyu_core/buyer_order_operations.py:110-123 | the loop over one page's items |
| `Pagination.DistinctOffsets` | integrations/xianyu_core/buyer_order_operations.py:142-153 | no cursor key is followed twice |
| `Pagination.DedupFacts` | integrations/xianyu_core/buyer_order_operations.py:110-123 | the result lists each id once and loses none |
| `Pagination.DedupKeepsFirst` | integrations/xianyu_core/buyer_order_operations.py:110-123 | for each id the first order is kept |
| `Pagination.DedupInOrder` | integrations/xianyu_core/buyer_order_operations.py:110-123 | the kept orders come in the order of the pages |
| `Pagination.ParsedAre` | integrations/xianyu_core/buyer_order_operations.py:110-123 | the orders of a page are its parsed items, in their order |
| `Pagination.ListedExactly` | integrations/xianyu_core/buyer_order_operations.py:110-123 | an id is listed if and only if one of the pages read carried an order with it |
| `Pagination.LastTotalIs` | integrations/xianyu_core/buyer_order_operations.py:94-110 | the total is the last one a page gave, and 0 if none did |
| `Pagination.KeysTell` | integrations/xianyu_core/buyer_order_operations.py:312-319 | two scalar cursors have the same key if and only if their texts are equal, two objects of plain names and values if and only if their fields are |
| `Pagination.LeadingPagesAreFollowed` | integrations/xianyu_core/buyer_order_operations.py:125-153 | for every platform: while pages have items, the next flag, new ids and new cursors and the limit allows it, the next page is requested |
| `Pagination.LeadingPagesAreRequested` | integrations/xianyu_core/buyer_order_operations.py:125-153 | so a listing that has ended has requested page n + 1 |
| `Pagination.StopsIncomplete` | integrations/xianyu_core/buyer_order_operations.py:125-153 | repeated ids, the limit, and a missing or repeated cursor end the listing as incomplete |
| `Pagination.StopsComplete` | integrations/xianyu_core/buyer_order_operations.py:134-137 | a page without items or the next flag ends it, complete unless it repeats |
| `Pagination.AfterMeans` | integrations/xianyu_core/buyer_order_operations.py:94-130 | the loop's variables mean what the responses so far say |
| `Pagination.FiniteKeysEnd` | integrations/xianyu_core/buyer_order_operations.py:142-153 | with finitely many cursor keys at most one page more than keys is read, whatever the flags say |
| `Pagination.LimitEnds` | integrations/xianyu_core/buyer_order_operations.py:138-140 | a page limit ends the loop |
| `Pagination.EndlessNeverEnds` | integrations/xianyu_core/buyer_order_operations.py:94-153 | without a limit, a platform that invents new cursors and ids is followed forever |
| `DecryptWorker.StepKeepsInv` | integrations/xianyu_core/protocol_worker.py:25-114 | calls, timeouts, closing, deaths and late lines keep the worker's invariant |
| `DecryptWorker.LateAnswersNeverReachLaterCalls` | integrations/xianyu_core/protocol_worker.py:25-114 | over every run no call fails by id mismatch, and what a call returns or reports was written for that call |
| `DecryptWorker.CallIsAnswered` | integrations/xianyu_core/protocol_worker.py:25-80 | an undisturbed call gets the child's answer to its own request, from the live child or one started for it |
| `DecryptWorker.DeadChildIsReplaced` | integrations/xianyu_core/protocol_worker.py:57-96 | the end of the output stops the waiting call, and a dead child is replaced |
| `DecryptWorker.CallFails` | integrations/xianyu_core/protocol_worker.py:30-51 | how a call fails, with the process given up |
| `DecryptWorker.PoolIsPartitionedAndMatched` | integrations/xianyu_core/protocol_worker.py:117-131 | over every run of any callers on a pool of any size: workers are partitioned into available and held by exactly one caller, a busy worker is held, and no caller gets another call's answer |
| `DecryptWorker.NodeDecryptWorker.constructor` | integrations/xianyu_core/protocol_worker.py:16-23 | no process yet |
| `DecryptWorker.NodeDecryptWorker.EnsureRunning` | integrations/xianyu_core/protocol_worker.py:57-80 | a live child is reused, otherwise one with a queue of its own starts |
| `DecryptWorker.NodeDecryptWorker.BeginDecrypt` | integrations/xianyu_core/protocol_worker.py:25-30 | the call takes the lock and a process |
| `DecryptWorker.NodeDecryptWorker.FinishDecrypt` | integrations/xianyu_core/protocol_worker.py:30-51 | an answer is a line of this call's queue written for this call, and any failure gives up the process |
| `DecryptWorker.DecryptPool.constructor` | integrations/xianyu_core/protocol_worker.py:118-124 | at least one worker, all available |
| `DecryptWorker.DecryptPool.Take` | integrations/xianyu_core/protocol_worker.py:126-127 | the first free worker, which nobody else holds |
| `DecryptWorker.DecryptPool.Put` | integrations/xianyu_core/protocol_worker.py:128-131 | the worker is free again |

## Left out

- HTTP, WebSocket, Redis, SQL, subprocess and file-system calls: their outcomes are events or parameters; the uniqueness constraints of the tables are taken as given.
- `store.py`, `orm.py`, `schemas.py`, `settings.py`, `order_management_service.py`: only the columns the protocols read and write.
- Parsing of platform orders, cards and messages, and building of HTTP payloads: long shape matching with one-branch facts.
- Encryption, key derivation, and the zip, tar and gzip formats of migration archives: an exact carrier of named entries. JSON encoding of the account is a function whose decoder undoes it.
- Profiles that change while they are written, case-insensitive file systems and names the target file system refuses.
- Deleting accounts, orders and conversations with their dependent rows, in all protocols.
- ConversationMap: the two reads of a transaction are one step.
- Chatwoot conversation status, labels, inboxes, read state and contacts; deletions of private or incoming messages.
- MessageMap.NoEcho: tasks run one at a time, and every download and command returns a local message key, as the bridge's queue arranges.
- RenewalExpiry: one account; all state but the manager's lock is per account, and the lock only removes interleavings. The manual cooldown and a vanished account appear as a trigger that gives up; a login that needs manual action is one whose stored error is `auth_expired`. At shutdown the table is cleared and the cancelled tasks end in one step, while in the source they end after it; and a report reads the stored status in the same step in which it looks at the task table, while in the source that read is an earlier await.
- OrderService: the undisturbed call only; interleavings, faults, refused writes and cancellations are in `OrderProtocol`.
- RenewalSchedule.InterruptedIsStuckExactly: scans of one loop; a restart begins a new loop at once, and `RenewalSchedule.StuckIsNeverStarted` holds for those scans too.
- RenewalSchedule: the clock does not run backwards between the events of a history.
- RenewalSchedule.OpenWindowIsKept: the row is not rewritten by another task between the scan's own store calls; `RenewalSchedule.StartNeedsWindow` covers such rewrites.
- Keepalive probing: which HTTP answers count as suspected or lost logins.
- PushQueue: a second cancellation of the push loop, and frames handled outside the queue.
- DecryptWorker: an interrupt that is not an `Exception` inside a call, after which the source keeps the child; deadlines are events.
- Pagination: the retries inside one page request, and the check of the status filter.
- CookieJar: quoting of cookie values inside the HTTP library.
- Two order schedulers, process health, account network policy, the task queue, the admin front end and packaging: their properties are small beside those above.
