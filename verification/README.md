# Verified model of the service platform's job, session and queue protocols

This project models, in Dafny 4.11, the parts of the Go service where state is
shared, duplicated or retried, and proves what they keep over whole runs.

- **Job lifecycle** (`JobStore`, `JobProtocol`, `JobSafety`, `JobHistory`,
  `JobConservation`, `JobAccounting`, `JobDriver`, `JobService`). `JobProtocol` is a
  step machine over the jobs table, the Redis list with its processing and retry
  sets, every worker's program counter and local copy, every scheduler's batch and
  every `CreateJob` call. Each store call is one step that is applied, refused, or
  applied with its reply lost. `JobService` holds the code itself as classes and
  shows each driver to be a run of that machine; `JobDriver` says what these runs
  do to the stores.
- **Session rotation** (`Sessions`, `SessionProtocol`, `SessionBound`,
  `AuthService`). The primary is a log of row operations, the replica a growing
  prefix of it, and `Insert` three separate writes.
- **SQS** (`SqsQueue`, `SqsRetry`, `SqsDuplication`, `SqsListener`), with several
  consumers holding one redelivered message at a time, and **backoff** over
  wrapping 64-bit integers (`Backoff`).
- **Query conditions** (`QueryConditions`), the **lease lock** (`LeaseLock`), the
  **read-through cache** (`ReadThroughCache`) and the **domain allow-list**
  (`DomainAllowList`).

`Outcomes` names the three ways a store call ends; `Basics` holds what several
modules share. Main results are lemmas over all runs, all interleavings and all
patterns of failing calls; methods carry the same specification functions in
their postconditions.

## Where the code differs from what it is meant to do

- Nothing reads the retry set and `GetRetryableJobs` never selects a `retrying`
  row, so no job is ever retried by the pool: `AttemptBudget` shows that a handler
  runs at most once per job, whatever `max_attempts` says, and
  `TerminalRowsAbsorbing` that a `retrying` row never changes again.
- Most store errors are logged and ignored. `JobsLostExactly` says which of them
  strand a job for good: an unacknowledged insert or pop, a refused push, any error
  at `MarkProcessing`, a refused final row write, and an unacknowledged reopening.
- Unique copies need a single scheduler. `UniqueCopiesExactly` gives the exact
  condition: at most one scheduler, or no failed row with attempts left.
- `Stop` returning nil says that no worker holds a job, now or later, exactly if
  the pool's context is cancelled or `Start` has launched all its workers
  (`StopExactly`). A `Stop` that runs before `Start` has made the context cancels
  nothing, and then a worker launched later takes jobs (`LaunchedAfterStop`).
- The pool's backoff is the capped exponential for attempts 1 to 29; beyond that
  the product wraps, and it is right only where the wrapped value happens to be
  positive, from attempt 64 on only where the platform's conversion makes it so
  (`PoolDelayExactness`); the two usual conversions do not (`PoolDelayPast63`).
  Without a positive delay `MarkFailed` schedules nothing.
- A visibility timeout that runs out while a message is being processed lets its
  deliveries overlap. Job rows per message are bounded by the overlap plus refused
  deletes and dropped deliveries, not by one (`RowsPerMessage`), and a re-sent job
  multiplies with every attempt (`RetryLoop`); both bounds are reached (`OverlapDuplicates`,
  `BoundsReached`).
- Rotation does not make a refresh token single-use: until the replica shows its
  revocation it can be exchanged again (`ReuseExactly`, `ReusedWhileReplicaStands`).
- `IsDomainAllowed` refuses the empty domain but trims later, so a domain of spaces
  is let through by an entry such as `*.` or `https://` (`BlankDomain`).
- The listener's retry branch is dead with the job-manager bridge, because the
  event job's two attempt counters are both zero (`BridgeDeletesOnce`).
- `UpdateBy` with a slice among its data builds `SET c IN (?)`, which is not an
  assignment; `UpdateBy` is a valid statement exactly without one.

## Assumptions

SHA-256 is injective (a constructor). Random tokens, job ids and SQS receipts are
fresh; a receipt stands for its message, whichever delivery it came with. JSON
encoding of a job round-trips. Clock readings, handler results, the
outcome of every store call, Go's map iteration order and the value of an
out-of-range float-to-integer conversion are arguments. A handler does not write
to the job it is given, except in the listener, where it may.

## Model

| member | source | states |
|---|---|---|
| `JobSafety.OneLiveCopy` | app/pkg/worker/pool.go:122-193 | in every reachable state a job id has at most one copy across queue, workers' hands, schedulers' batches and `CreateJob` calls, under any interleaving and any failing calls |
| `JobSafety.UniqueCopiesExactly` | app/service/worker_service.go:143-174 | all runs from a cold start keep copies unique if and only if there is at most one scheduler or no failed row with attempts left |
| `JobSafety.TwoSelectorsDuplicate` | app/service/worker_service.go:157-173 | two schedulers and one such row always admit a run that queues the job twice |
| `JobSafety.AttemptBudget` | app/pkg/worker/pool.go:214-250 | rows never exceed their budget; a live copy carries its row's attempts, one more once its failure is counted; what the pool leaves failed has spent its budget exactly; the handler runs at most once per job and within the budget |
| `JobSafety.ReopenableFromStart` | app/database/repository/job_repository.go:183-196 | a row the scheduler may select was selectable when the run began, so never one the pool wrote |
| `JobSafety.SelectableExactly` | app/database/repository/job_repository.go:183-196 | an idle scheduler may select a row if and only if it is failed with attempts left |
| `JobSafety.SchedulerFindsNothing` | app/service/worker_service.go:144-153 | from a table without such rows every selection in every run is empty |
| `JobSafety.TerminalRowsAbsorbing` | app/database/repository/job_repository.go:125-181 | completed, budget-exhausted failed and retrying rows never change again and their handler is not run again, although no UPDATE guards on the old status |
| `JobSafety.ProcessingSet` | app/pkg/queue/queue.go:106-156 | the processing set is the disjoint union of the ids between mark and clear and the ids a lost mark or refused clear left behind |
| `JobSafety.ProcessingSetWithoutErrors` | app/pkg/worker/pool.go:170-250 | without errors the processing set is exactly the ids between mark and clear |
| `JobSafety.SafeStep` | app/pkg/worker/pool.go:157-250 | every step of every actor keeps the whole invariant |
| `JobHistory.RowsTellTheStory` | app/pkg/worker/pool.go:157-250 | in every reachable state the row of every job that left the queue is the one determined by which writes were applied and what the handler returned: a written success is completed, a written failure is failed if and only if it spent the last attempt and retrying otherwise, with one attempt more, and an unwritten job is pending or processing; the handler ran as often as the story says |
| `JobHistory.OtherRowsWait` | app/service/worker_service.go:157-173 | every other row is as it was at the start, or was failed with attempts left and is pending with the same attempts, or is new, pending and unattempted |
| `JobConservation.JobsLostExactly` | app/pkg/worker/pool.go:136-241 | over whole runs a job is lost, its row open and nothing carrying it, if and only if one of six kinds of failing call hit it; every other failing call is harmless |
| `JobConservation.LostExactly` | app/service/worker_service.go:157-173 | each single step loses exactly its victim and nothing else |
| `JobConservation.LostStays` | app/database/repository/job_repository.go:183-196 | a lost job's row never changes and nothing picks it up again |
| `JobAccounting.JobsAreAccountedFor` | app/pkg/worker/pool.go:296-324 | jobs returned by `Dequeue` are processed, failed, dropped on a mark error or still held; both gauges equal the workers inside their section, at most the pool size |
| `JobAccounting.DecrementNeverBlocked` | app/pkg/worker/pool.go:303-312 | the `> 0` guards never stop a decrement |
| `JobAccounting.StopExactly` | app/pkg/worker/pool.go:86-107 | with the wait group at zero, no worker holds a job in that state or any continuation if and only if the context is cancelled or every worker has been launched |
| `JobAccounting.LaunchedAfterStop` | app/pkg/worker/pool.go:65-84 | from every reachable state without cancellation and with workers still to launch, some run makes the next worker take a job |
| `JobAccounting.StopMeansNoJobHeld` | app/pkg/worker/pool.go:86-107 | after a completed `Start`, an empty wait group means every worker has stopped, in that state and every continuation |
| `JobAccounting.StartThenStop` | app/pkg/worker/pool.go:65-107 | an undisturbed `Start` leaves every worker polling and counted, an undisturbed `Stop` every worker stopped and the wait group empty |
| `JobStore.Budget` | app/manager/job_manager.go:53-55 | the budget fixed at creation is at least one: the requested one, or three for a request that is not positive |
| `JobService.JobRepository.Create` | app/database/repository/job_repository.go:38-41 | inserts the row when applied and reports any error |
| `JobService.JobRepository.UpdateStatus` | app/database/repository/job_repository.go:52-66 | sets one row's status with no guard, whatever it was, and nothing else |
| `JobService.JobRepository.UpdateJobToFailure` | app/database/repository/job_repository.go:149-181 | sets one row's status, adds one attempt, and changes nothing else |
| `JobService.JobRepository.GetRetryableJobs` | app/database/repository/job_repository.go:183-196 | distinct snapshots of failed, aged rows with attempts left, by falling priority and then age, at most the limit; a row left out comes after all that were taken; nothing on a query error |
| `JobService.RedisQueue.Enqueue` | app/pkg/queue/queue.go:45-77 | pushes left and, for a future job, adds to the retry set, as one transaction |
| `JobService.RedisQueue.Dequeue` | app/pkg/queue/queue.go:79-104 | takes the oldest entry; a lost reply loses it |
| `JobService.RedisQueue.MarkProcessing` | app/pkg/queue/queue.go:106-119 | adds the id to the processing set |
| `JobService.RedisQueue.MarkCompleted` | app/pkg/queue/queue.go:121-130 | removes the id from the processing set |
| `JobService.RedisQueue.MarkFailed` | app/pkg/queue/queue.go:132-156 | removes the id and schedules a retry only for a positive delay |
| `JobService.Service.CreateJob` | app/manager/job_manager.go:48-93 | refuses an empty type; leaves exactly the row, list entry and retry-set entry its outcomes allow; is a run of the machine |
| `JobService.Service.RunWorkerOnce` | app/pkg/worker/pool.go:130-154 | stops exactly on cancellation; without a job nothing changes but, on a lost reply, the list; otherwise the oldest job is taken off the list and processed, and the gauges end where they began |
| `JobService.Service.IncrementActiveWorkers` | app/pkg/worker/pool.go:296-301 | both gauges go up by one |
| `JobService.Service.DecrementActiveWorkers` | app/pkg/worker/pool.go:303-312 | each gauge goes down by one unless it is not positive |
| `JobService.Service.ProcessJob` | app/pkg/worker/pool.go:157-193 | for every pattern of outcomes the row's status and attempts, the processing and retry sets and the totals; a job is dropped only on a mark error; is a run of the machine |
| `JobService.Service.HandleJobSuccess` | app/pkg/worker/pool.go:195-212 | the row is completed if the write is applied, the id leaves the processing set if the clear is, one more job counts as processed, nothing else changes |
| `JobService.Service.HandleJobFailure` | app/pkg/worker/pool.go:214-250 | an applied write leaves the row failed if this was the last attempt and retrying otherwise, with one attempt more; the id leaves the processing set and enters the retry set only for a positive delay; one more job counts as failed |
| `JobDriver.ProcessedMeans` | app/pkg/worker/pool.go:157-193 | the same of the machine's run of `processJob` |
| `JobDriver.IteratedMeans` | app/pkg/worker/pool.go:130-154 | the same of the machine's run of one loop iteration |
| `JobService.Service.ProcessRetryableJobs` | app/service/worker_service.go:143-174 | a failing query changes nothing; otherwise selects the first hundred rows failed for five minutes; exactly the jobs whose reopening was acknowledged and push applied end up on the list, the last one in front of the old list; exactly the rows whose reopening was applied are pending, with their attempts, and no other row changes |
| `JobDriver.RequeuedQueue` | app/service/worker_service.go:157-173 | what the scheduler's loop leaves on the list |
| `JobDriver.RequeuedRows` | app/service/worker_service.go:157-173 | what the scheduler's loop leaves in the table |
| `JobService.Service.RetryJob` | app/service/worker_service.go:157-173 | one turn: the row is pending if the reopening was applied, the job is on the list exactly if that was also acknowledged and the push applied |
| `Backoff.PoolDelay` | app/pkg/worker/pool.go:252-262 | at most ten minutes for every attempt number on every platform |
| `Backoff.PoolDelayExact` | app/pkg/worker/pool.go:252-262 | the capped exponential, positive, for attempts 1 to 29 |
| `Backoff.PoolDelayMonotone` | app/pkg/worker/pool.go:252-262 | never shrinks between attempts 1 and 29 |
| `Backoff.PoolDelayExactness` | app/pkg/worker/pool.go:252-262 | for every attempt number: zero below 1, and from 1 on the exact conditions for being the capped exponential and for being positive |
| `Backoff.PoolDelayPast63` | app/pkg/worker/pool.go:252-262 | from attempt 64 on, conversions to the smallest or the largest integer give no positive delay |
| `Backoff.Schedules` | app/pkg/worker/pool.go:252-262 | the delays in nanoseconds: 30, 60, 120, 240 and 480 seconds, then ten minutes for the pool and fifteen for the default SQS configuration |
| `Backoff.SqsDelayExact` | app/pkg/sqs/queue.go:330-344 | the capped exponential while the product fits 63 bits |
| `Backoff.SqsDelayRecurrence` | app/pkg/sqs/queue.go:330-344 | starts at the base, doubles, stops at the cap |
| `Backoff.DefaultSqsDelayExactness` | app/pkg/sqs/queue.go:330-344 | under the default configuration the exact conditions, for every attempt number, for being the capped exponential and for being positive |
| `Backoff.DelaySeconds` | app/pkg/sqs/queue.go:226-229 | for delays below 2^31 seconds the exact whole seconds, cut to 900; never more than 900 |
| `Backoff.DefaultDelayNeverClamped` | app/pkg/sqs/config.go:68-72 | under the default configuration neither the 900-second limit nor whole seconds change a delay |
| `Sessions.RowsOnlyDie` | app/database/repository/session_repository.go:42-59 | between a prefix and the log, rows keep user and expiry and stay dead |
| `Sessions.RowWasInserted` | app/database/repository/session_repository.go:29-40 | every row comes from an insert and differs from it only by a revocation |
| `Sessions.IssuedTokenWindow` | app/pkg/jwt/jwt.go:111-131 | an issued token is valid exactly from the second it was signed in up to the second its lifetime ends in |
| `Sessions.SessionVerdict` | app/manager/auth_manager.go:199-214 | when a lookup is found, invalid or revoked, case by case |
| `Sessions.OperationsMean` | app/database/repository/session_repository.go:51-59 | a live row that is hit becomes revoked and soft-deleted and is otherwise unchanged; no other row changes; no row goes away |
| `SessionProtocol.RevocationIsFinal` | app/manager/auth_manager.go:164-172 | once the replica shows a token's row revoked, every later refresh with it is refused in every continuation |
| `SessionProtocol.RefreshKillsItsToken` | app/manager/auth_manager.go:184-192 | a refresh kills the presented token on the primary for good once either of its revocations is applied |
| `SessionProtocol.NeverRevokedNorExpired` | app/manager/auth_manager.go:199-214 | on every primary or replica table revoked implies soft-deleted and no row expires before its token, so after `ValidateToken` accepts, `validateSession` at the same instant says neither revoked nor expired |
| `SessionProtocol.AcceptedExactly` | app/manager/auth_manager.go:159-172 | a signed refresh token is accepted if and only if it is unexpired and its row is live on the replica |
| `SessionProtocol.ReuseExactly` | app/manager/auth_manager.go:184-192 | after a refresh with a token was begun, a second one is accepted if and only if the token is unexpired and the replica does not show its revocation; never on a replica that has caught up with a revocation |
| `SessionProtocol.ReusedWhileReplicaStands` | app/database/repository/session_repository.go:42-49 | while the replica stands still an accepted token stays accepted until it expires, whatever was written meanwhile |
| `SessionProtocol.IssuedTokenIsAccepted` | app/manager/auth_manager.go:159-238 | the token of any login or refresh is accepted, in every continuation, if and only if its last second has not come and the replica shows its row live |
| `SessionProtocol.WritesInOrder` | app/manager/auth_manager.go:184-192 | the writes of one call in order; it succeeds if and only if the insert was acknowledged |
| `SessionProtocol.LogoutKillsItsToken` | app/manager/auth_manager.go:63-75 | an applied logout kills the row of its token on the primary for good |
| `SessionProtocol.InvStep` | app/manager/auth_manager.go:216-238 | every step of every call keeps the session invariant |
| `SessionBound.LiveSessionsBounded` | app/database/repository/session_repository.go:29-40 | with at most C overlapping inserts and no refused revocation, live sessions plus calls between revoke and insert never exceed C |
| `SessionBound.OtherUsersUntouched` | app/database/repository/session_repository.go:51-59 | no write of a login or refresh changes another user's row |
| `AuthService.SessionRepository.RevokeByToken` | app/database/repository/session_repository.go:51-54 | revokes and soft-deletes the live row of a token |
| `AuthService.SessionRepository.RevokeByUserID` | app/database/repository/session_repository.go:56-59 | revokes and soft-deletes all live rows of a user |
| `AuthService.SessionRepository.Insert` | app/database/repository/session_repository.go:29-40 | the three writes in order, revocation errors ignored, a duplicate token refused |
| `AuthService.InsertedMeans` | app/database/repository/session_repository.go:29-40 | row by row: the user's live rows are revoked if that write was applied, the new row is there if its insert was, all else is unchanged |
| `AuthService.SessionRepository.FindByToken` | app/database/repository/session_repository.go:42-49 | finds exactly the live rows of the replica, or reports a failing query |
| `AuthService.AuthManager.CreateSession` | app/manager/auth_manager.go:216-238 | signs, stamps and inserts; nothing is written if signing fails; a token is handed out only if the insert succeeded, with its validity and the row's expiry spelt out |
| `AuthService.AuthManager.Login` | app/manager/auth_manager.go:117-157 | invalid credentials exactly for a missing user or a wrong password, other errors apart; the exact condition for success; nothing changes before both tokens are signed; with a working revocation the user's only live session is the new one; others are untouched |
| `AuthService.AuthManager.ValidateSession` | app/manager/auth_manager.go:199-214 | lookup failed, or invalid, revoked, expired or found, judged on the replica |
| `AuthService.AuthManager.RefreshToken` | app/manager/auth_manager.go:159-197 | the exact condition for success and the answer in every other case, lookup and signing errors included; afterwards the user's only live session is the returned token's, the old token lives on if and only if both revocations were refused, others are untouched |
| `AuthService.AuthManager.Logout` | app/manager/auth_manager.go:63-75 | succeeds exactly on a valid token and an acknowledged write; an applied write leaves that token's row not live, no other row changes |
| `AuthService.RotateTwice` | app/manager/auth_manager.go:117-197 | round trip: what a login issues a refresh accepts, and what that issues the next one accepts, each exactly within its lifetime, on a replica that has caught up |
| `SqsQueue.Dequeue` | app/pkg/sqs/queue.go:96-146 | takes the first usable message in queue order, deletes exactly the malformed ones before it, panics exactly on a nil payload |
| `SqsQueue.SpoiledExactly` | app/pkg/sqs/queue.go:117-126 | the deletes of `Dequeue` are those of exactly the malformed messages it met, in order |
| `SqsQueue.TaggedMeans` | app/pkg/sqs/queue.go:128-132 | a taken job carries its receipt and queue under `_sqs_metadata` and is otherwise unchanged |
| `SqsQueue.Queue.MarkCompletedWithMetadata` | app/pkg/sqs/queue.go:166-191 | every error case; deletes the message |
| `SqsQueue.Queue.MarkFailedWithMetadata` | app/pkg/sqs/queue.go:205-264 | every error case; deletes before sending; re-sends only with attempts and a positive delay left, the same job with one attempt more, the same budget, and the delay in whole seconds up to 900 |
| `SqsRetry.TakeAndFail` | app/pkg/sqs/queue.go:129-264 | receiving a message and failing it, whoever else holds it, is a run of the retry machine |
| `SqsRetry.TakeAndComplete` | app/pkg/sqs/queue.go:129-191 | receiving a message and completing it is a run of the retry machine |
| `SqsRetry.ResendsBounded` | app/pkg/sqs/queue.go:166-264 | over any run with at most C consumers on one message at a time, past re-sends, queued copies and pending re-sends never gain worth |
| `SqsRetry.RetryLoop` | app/pkg/sqs/queue.go:205-264 | with n = `MaxAttempts - Attempts` left and at most C overlapping rounds per message, a job has at most C^n copies and C + ... + C^n re-sends, one copy and n re-sends for C = 1; every copy keeps its payload outside the metadata and its budget, with attempts within that budget |
| `SqsDuplication.BoundsReached` | app/pkg/sqs/queue.go:205-264 | for every C and n some run reaches both bounds; with two consumers both delete and both re-send |
| `SqsListener.Listener.ParseMessage` | app/pkg/sqs/listener.go:340-367 | valid messages pass, all others get a delete request |
| `SqsListener.Listener.HandleJobAndCleanup` | app/pkg/sqs/listener.go:405-426 | handles once, then deletes once unless the message is kept for redelivery |
| `SqsListener.Listener.ProcessMessage` | app/pkg/sqs/listener.go:314-338 | the events of a message are exactly its disposition |
| `SqsListener.JobCarriesMessage` | app/pkg/sqs/listener.go:369-403 | the handled job has the message's type, every field of its payload, the message id and queue under `_sqs_metadata`, and no attempts |
| `SqsListener.MessageBecomesJob` | app/pkg/sqs/listener.go:37-116 | from message to created job: the two known event types are translated, every payload field arrives, the budget is three |
| `SqsListener.KeptExactly` | app/pkg/sqs/listener.go:436-457 | at most one delete request; none if and only if the handler fails with attempts left on the job and a non-fatal error |
| `SqsListener.Bridge` | app/pkg/sqs/listener.go:37-103 | leaves the event job alone; succeeds exactly when the row insert and the push do |
| `SqsListener.BridgeDeletesOnce` | app/pkg/sqs/listener.go:369-426 | with the bridge every path makes exactly one delete request, after the handler for a well-formed message |
| `SqsListener.RowsPerMessage` | app/pkg/sqs/listener.go:287-311 | over any run with at most C deliveries of a message under way, its job rows are at most C plus its refused deletes and dropped deliveries |
| `SqsListener.OverlapDuplicates` | app/pkg/sqs/listener.go:187-194 | for every C some run with C overlapping deliveries makes C rows with no delete refused and no delivery dropped |
| `QueryConditions.StructToQueries` | app/database/repository/query_utils/query_helpers.go:22-44 | one condition and argument per entry, aligned, in iteration order, the text of each spelt out |
| `QueryConditions.JoinedText` | app/database/repository/query_utils/query_helpers.go:55-55 | conditions are joined by ` AND ` |
| `QueryConditions.ReadsBack` | app/database/repository/query_utils/query_helpers.go:46-56 | joining conditions over plain columns and reading the text back, with the reader's own operators, is a round trip |
| `QueryConditions.AtomsMeanFilter` | app/database/repository/query_utils/query_helpers.go:31-41 | in every iteration order the comparisons hold exactly when the filter matches |
| `QueryConditions.MatchesMeans` | app/database/repository/query_utils/query_helpers.go:31-41 | a row matches if and only if each named column holds the value or one of the values, never NULL |
| `QueryConditions.StructToConditions` | app/database/repository/query_utils/query_helpers.go:46-56 | for all names the text and its arguments; for plain names and every order, the condition read with its positional arguments holds of a row exactly when every entry does |
| `QueryConditions.BuildQueryConditions` | app/database/repository/query_utils/query_helpers.go:92-124 | the query selects exactly the matching rows, all of them for an empty filter, with the alias only under relations; offset, limit and order are the page's with its defaults filled in |
| `QueryConditions.UpdateBy` | app/database/repository/query_utils/query_helpers.go:167-195 | sends nothing without data, changes nothing on an error; for plain names valid exactly without slices, then sets the named columns of the matching rows and nothing else, in every order |
| `LeaseLock.MutualExclusion` | app/pkg/redis/redis.go:186-196 | if holders stop before their own lease ends, at most one client holds the key, in every run |
| `LeaseLock.OverstayingBreaksExclusion` | app/pkg/redis/redis.go:186-196 | from any such state, one overstaying holder and one acquisition make two holders |
| `LeaseLock.LeaseLasts` | app/pkg/redis/redis.go:186-192 | a key taken for a duration is there exactly before that has passed, and always for a zero duration |
| `LeaseLock.LeaseHolds` | app/pkg/redis/redis.go:186-192 | until then, over any run without a release, nobody else gets it |
| `LeaseLock.Store.AcquireLock` | app/pkg/redis/redis.go:186-192 | true exactly on a free or expired key with an acknowledged reply; an applied one sets the key for the duration |
| `LeaseLock.ReleaseFrees` | app/pkg/redis/redis.go:194-200 | an applied release frees the key at once |
| `LeaseLock.Store.ReleaseLock` | app/pkg/redis/redis.go:194-200 | frees the key whoever took it |
| `ReadThroughCache.AnswersAreRecent` | app/pkg/redis/redis.go:167-184 | with positive TTLs every answer was the source's value at most TTL plus write delay ago, over overlapping calls |
| `ReadThroughCache.ZeroTtlIsNeverRecent` | app/pkg/redis/redis.go:167-184 | with a zero TTL no such bound holds |
| `ReadThroughCache.SavedIsServed` | app/pkg/redis/redis.go:167-184 | a saved value is served exactly until its TTL has passed, and always with a zero TTL |
| `ReadThroughCache.Cache.Wrap` | app/pkg/redis/redis.go:167-184 | serves an entry that can be read; else loads, hands the value over even if saving fails, and returns the save's error; if loading fails too the model keeps what a failed decode wrote into it |
| `DomainAllowList.HasScheme` | app/pkg/util/validator/validator.go:222-234 | true exactly for one or more letters followed by `://` |
| `DomainAllowList.SchemeText` | app/pkg/util/validator/validator.go:222-234 | such a text is letters, `://` and a rest |
| `DomainAllowList.IsDomainAllowed` | app/pkg/util/validator/validator.go:184-220 | true exactly when the domain is not empty and some entry accepts it |
| `DomainAllowList.UnderIsLabelSuffix` | app/pkg/util/validator/validator.go:201-214 | the textual suffix test equals ending with the apex's labels |
| `DomainAllowList.AcceptsByLabels` | app/pkg/util/validator/validator.go:189-218 | a wildcard or leading-dot entry accepts exactly the domains whose labels end with its own, any other entry only itself |
| `DomainAllowList.UrlEntry` | app/pkg/util/validator/validator.go:190-199 | a URL entry stands for its host in lower case, one that cannot be parsed for its own text, spaces around it or not |
| `DomainAllowList.PlainEntry` | app/pkg/util/validator/validator.go:190-218 | any other entry stands for its own text in lower case, spaces around it or not |
| `DomainAllowList.SpacesDoNotMatter` | app/pkg/util/validator/validator.go:188-188 | spaces around a domain that is not empty do not matter |
| `DomainAllowList.CaseDoesNotMatter` | app/pkg/util/validator/validator.go:188-188 | letter case of the domain does not matter |
| `DomainAllowList.BlankDomain` | app/pkg/util/validator/validator.go:185-218 | a domain of spaces only is allowed if and only if some entry comes down to nothing, `.` or `*.` |
| `DomainAllowList.WildcardIsLeadingDot` | app/pkg/util/validator/validator.go:201-214 | `*.s` and `.s` accept the same domains |
| `DomainAllowList.AllowedIsMonotone` | app/pkg/util/validator/validator.go:189-219 | a list with more entries allows more |
| `DomainAllowList.AllowedIgnoresOrder` | app/pkg/util/validator/validator.go:189-219 | the order of the list does not matter |

## Left out

- HTTP server, controllers, middleware, configuration and connection set-up: input and output only.
- JWT signing and parsing, bcrypt, `url.Parse`, `mapstructure` and the SQL builder library: library code, used through the assumptions above.
- Automatic command retries inside the Redis client library, which could repeat a push.
- Scores of the sorted sets and payloads of pool jobs: no branch of the lifecycle depends on them.
- Priorities and timestamps of jobs in the step machine: it allows any selection of failed rows with attempts left, of which `GetRetryableJobs` makes one.
- Soft deletion of jobs: nothing sets a job's `deleted_at`.
- Liveness: that a job is eventually run, or a scheduled job at its time.
- `DeleteByID` and `DeleteByUserID` of the session repository: nothing calls them.
- Backoff.PoolDelay: its own contract is the cap alone; `PoolDelayExactness` states its value.
- LeaseLock.MutualExclusion: one key, since keys do not influence each other, and only clients that were granted the lock release it.
- QueryConditions.UpdateBy: which rows change is stated for plain names, as for `StructToConditions`.
- Values of array kind, such as a UUID, in a filter: the builder passes them through `bun.In` like slices, and what the SQL library then makes of their elements is not modelled.
- QueryConditions.StructToConditions: names with characters outside letters, digits, underscore and dot get no meaning here.
- `FindManyModel` and `CheckExist` with an empty filter: they pass an empty condition on to the SQL library, whose treatment of it is not modelled.
- The statistics collector's queue depths, the health monitor, the rate limiter, the scheduler wrappers and the currency table: only easy members.
