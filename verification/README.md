# Relay delivery engine: a verified model

Relay accepts webhook events, stores them in PostgreSQL and delivers them at least once. Workers lease
rows with a claim identifier, send, and record the attempt with a compare-and-set on that identifier.
Failed attempts are retried on a jittered backoff schedule, dead letters can be replayed as a new
generation, and a quota-limited visitor sandbox shares the same tables. Queue messages only wake the
worker up.

This project models that engine and proves what it guarantees over every run, whatever the interleaving
of workers, operators, visitors, cleanup, crashes and clock ticks.

## Layout

| file | content |
|---|---|
| `Basics.dfy`, `Tables.dfy` | time, counting lemmas, the four tables and their declared constraints |
| `Policy.dfy` | outcome classes, retry decision, backoff arithmetic, the attempts a sender can build |
| `Queue.dfy`, `Sandbox.dfy` | what each statement or transaction may do to the tables |
| `DatabaseStore.dfy` | the database as a mutable object, its operations with their loops, and the worker |
| `World.dfy` | the system as a state machine with the history of what was issued |
| `Invariant.dfy`, `ClaimKeeps.dfy`, `RecordKeeps.dfy`, `OtherKeeps.dfy` | the invariant, and that every step keeps it |
| `Guarantees.dfy` | safety theorems about every reachable world |
| `Receipts.dfy`, `Retention.dfy`, `Quota.dfy` | idempotent receipt, cleanup, hourly quotas |
| `Schedule.dfy` | the backoff schedule against the age limit, over runs |
| `Liveness.dfy` | no starvation, termination, draining of the age backlog |
| `Behaviours.dfy` | how calls on the database object fit into runs; a run that breaks the contract |
| `Token.dfy` | the session credential |
| `Notification.dfy` | receive, acknowledge and the reconciliation cycle |

`dafny verify dfyconfig.toml` checks everything.

## Assumptions

- One SQL statement or transaction is one atomic step. Rows another transaction holds when `SKIP LOCKED`
  looks at them are an arbitrary set given with the step; ties in `ORDER BY` and an unordered `LIMIT` may
  be resolved in any way. `Accept` and `Replay` issue a second statement, a read that explains why the
  first matched nothing; what others commit between the two is a parameter of theirs.
- Identifiers from `NewUUID` and session identifiers are fresh (UUID version 4, section 5.4 of RFC 9562).
- One nondecreasing clock is read by workers and by `clock_timestamp()`. The instant a worker hands to a
  claim may be any earlier reading. A transaction reads the clock once. The quota theorem
  `Quota.QuotasHoldAtAnyClock` assumes nothing about the clock at all.
- An operator's source key never starts with `sandbox:` (cmd/api/main.go:133-136), so operator and
  visitor sources are two cases of one datatype.
- A session expires half an hour after it was issued, and is issued no later than it is admitted
  (internal/sandbox/http.go:110-115).
- The MAC, the SHA-256 digest of a body and the hash behind the jitter are arbitrary functions or values.

## Where the code and its documents differ

- `docs/delivery-contract.md:119-121` makes every other HTTP response terminal and every attempted request
  durable. `HTTPOutcome` does classify a status outside 100..599 as terminal, but the attempts table
  refuses to store it, so the whole record is rolled back and the event stays in delivery until its lease
  lapses. `Behaviours.TerminalResponseLost` is such a run; `Guarantees.TerminalResponseSettlesIff` and
  `Guarantees.RecordGoesThroughIff` say exactly when the promise holds.
- `docs/sandbox-contract.md:59-61` budgets 24 attempt rows per visitor event. No event can have more than
  three (`Guarantees.VisitorAttemptBound`): a temporary failure fills three in one generation, and only a
  permanent failure is ever dead while its session lives, so only that can be replayed.

## Model

| member | source | states |
|---|---|---|
| Policy.HttpOutcome | internal/delivery/policy.go:5-23 | class 2 succeeds; 408, 429 and class 5 may be retried; nothing else may, whatever the 16-bit status |
| Policy.OffsetBounds | internal/delivery/sender.go:112-115 | the jitter offset is within a fifth of the delay and its 64-bit product cannot overflow, for every hash |
| Policy.WaitWithinTwentyPercent | internal/delivery/sender.go:101-116 | every wait is within 20% of its nominal delay and at least 4 s |
| Policy.JitterReachesBothEnds | internal/delivery/sender.go:113-114 | both ends of the 20% range are reached, so the range is inclusive |
| Policy.JitterIsExact | internal/delivery/sender.go:112-115 | no wait is rounded: it is its nominal delay plus exactly the whole per mille the hash asks for |
| Policy.WaitsIncrease | internal/delivery/sender.go:105-115 | a later wait is strictly longer than any earlier one, for any two hashes |
| Policy.RetryIsLater | internal/delivery/sender.go:101-116 | a retry lies strictly after the attempt that caused it; settled outcomes are not rescheduled |
| Policy.RetryDueWithin | internal/delivery/sender.go:101-116 | after attempt n the next one is due within 20% of 5 s, 30 s, 2 min, 10 min, 30 min, 2 h or 6 h from the clock reading the code takes for it |
| Policy.WholeSchedule | internal/delivery/sender.go:105-106 | all waits of a generation total at most 37 626 s |
| Policy.SendFacts | internal/delivery/sender.go:39-99 | every attempt a sender can build keeps its clock readings in order and has exactly one of a status and an error code |
| Queue.ExpiredIs | internal/postgres/queue.go:20-24 | the rows due for retirement are the unlocked ones a day old that are pending, waiting for a retry, or in delivery with a lapsed lease |
| Queue.DueIs | internal/postgres/queue.go:30-41 | the rows that can be claimed are the unlocked ones younger than a day, due or with a lapsed lease, of operators and live sessions |
| Queue.FirstIsReady | internal/postgres/queue.go:30-41 | the row picked is ready and no ready row has an earlier due time, or the same and an earlier creation; none is picked only if none is ready |
| Queue.ClaimMeans | internal/postgres/queue.go:26-49 | a claim puts its row in delivery under its name and a fresh lease, counts it once more unless it recovers it, tells exactly its numbers, and changes no other row but overage ones, which die |
| Sandbox.DeletableIs | internal/sandbox/cleanup.go:13-16 | deletable rows are the unlocked ones of expired sessions with no lease left |
| Sandbox.AbandonedIs | internal/sandbox/cleanup.go:40-42 | sessions to drop are the expired ones that own no event any more |
| DatabaseStore.Database.constructor | migrations/002_sandbox.sql:10-18 | empty tables and a zero budget for the current hour |
| DatabaseStore.Database.Oldest | internal/postgres/queue.go:25 | the row found is no younger than any other |
| DatabaseStore.Database.SelectExpired | internal/postgres/queue.go:20-25 | the rows chosen are the ten oldest overage, unfinished, unleased rows, or all of them |
| DatabaseStore.Database.SelectCandidate | internal/postgres/queue.go:30-41 | the row picked is a least one by due time and creation time among due, young, unlocked rows of live sessions; none only if there is none |
| DatabaseStore.Database.RetireRows | internal/postgres/queue.go:26-29 | exactly the chosen rows become dead letters |
| DatabaseStore.Database.Claim | internal/postgres/queue.go:14-67 | both selections are made on the tables before the statement; a ready, unlocked row is leased whenever there is one, the first of them, and the claimant holds it |
| DatabaseStore.Database.Record | internal/postgres/queue.go:69-107 | event and attempt change together or not at all, column by column; delivered, dead or to be retried by outcome, attempt number and age; the answer says which of fence and constraint refused |
| DatabaseStore.Database.InsertIfAbsent | internal/postgres/store.go:31-47 | the row is stored exactly if neither its key nor its identifier is taken, and the outcome says which was |
| DatabaseStore.Database.AcceptExisting | internal/postgres/store.go:58-78 | the stored row's identifier as a duplicate for an equal digest, else a conflict; an error if there is no row |
| DatabaseStore.Database.Accept | internal/postgres/store.go:27-56 | two statements: insert, and only if the key was taken a read of whatever others left there by then |
| DatabaseStore.Database.Replay | internal/postgres/replay.go:13-41 | an owned dead letter under sixteen replays starts a new generation, no other row changes; otherwise a second statement tells why from whatever others left by then |
| DatabaseStore.Database.Create | internal/sandbox/store.go:59-77 | a session is stored and charged, or refused for the right reason with every table and counter as before |
| DatabaseStore.Database.Submit | internal/sandbox/store.go:92-151 | only the three scenario names are admitted, each stored as its own simulator; event, session count and budget change together, and a refusal names its reason and undoes even the session count |
| DatabaseStore.Database.VisitorReplay | internal/sandbox/store.go:153-190 | only an owned dead letter of a live session within both quotas is reopened; a refusal names its reason and changes nothing |
| DatabaseStore.Database.Smallest | internal/sandbox/cleanup.go:17 | the identifier found is least |
| DatabaseStore.Database.FirstHundred | internal/sandbox/cleanup.go:17-33 | the hundred least identifiers of any set of rows, or all of them |
| DatabaseStore.Database.SelectDoomed | internal/sandbox/cleanup.go:13-33 | the identifiers collected are the first hundred deletable ones, or all of them |
| DatabaseStore.Database.SelectAbandoned | internal/sandbox/cleanup.go:40-42 | at most a hundred expired sessions without events, all if fewer |
| DatabaseStore.Database.Cleanup | internal/sandbox/cleanup.go:7-47 | exactly the doomed events, their attempts and the dropped sessions disappear and the window is rolled |
| DatabaseStore.Worker.RunOnce | internal/delivery/worker.go:59-75 | claim, send and record compose: idle exactly if no unlocked row is ready, processed exactly if an attempt was stored; undisturbed, the record is never refused for a replaced claim |
| RecordKeeps.SimulationAdvances | internal/delivery/sandbox.go:7-24 | each simulated attempt has its scenario's status and takes its event exactly as far: delivered by 204 at once, retried after each of two 503 and then delivered by 204, or dead after 422 |
| OtherKeeps.VisitorReplayIsPermanent | internal/sandbox/store.go:159-181 | the only visitor events that can ever be replayed are permanent failures |
| Guarantees.StepKeeps | internal/postgres/queue.go:19-107 | every step of every actor keeps the whole invariant |
| Guarantees.ReachableInv | internal/postgres/queue.go:19-107 | the invariant holds in every world any interleaving reaches |
| Guarantees.ConstraintsAlwaysHold | migrations/001_initial.sql:16-61 | no CHECK or REFERENCES constraint of either migration is ever broken, column by column |
| Guarantees.KeysAlwaysUnique | migrations/001_initial.sql:33-55 | no two events share a key and no two attempts an event, generation and number |
| Guarantees.CountersFollowState | migrations/001_initial.sql:23-36 | attempt counts follow states and a delivery time is set exactly in the delivered state, though a visitor replay does not clear it |
| Guarantees.AttemptLedger | internal/postgres/queue.go:42-46 | attempts stored for any generation are 1..k without a gap, k at most 8 and tied to state and count for the current one, despite crashes, recovery, retirement and replay |
| Guarantees.OneLiveClaim | internal/postgres/queue.go:31-49 | at most one unrecorded claim per event is under its 30 s lease, and it holds the row with exactly the row's numbers and lease |
| Guarantees.FenceIsExact | internal/postgres/queue.go:80-91 | a claim that passes the fence holds exactly the row's generation and attempt; any other changes nothing |
| Guarantees.RecordedOnce | internal/postgres/queue.go:80-99 | of all claims ever issued for one attempt of one generation at most one is recorded, and its attempt stays stored |
| Guarantees.ResendNeedsLapse | internal/postgres/queue.go:34-46 | an attempt is sent again only a whole lease later, and never after it was recorded |
| Guarantees.RecordGoesThroughIff | internal/postgres/queue.go:80-99 | a record commits iff the claim still holds its row and the status is within 100..599; no other constraint can fire |
| Guarantees.PunctualRecordIsNeverReplaced | internal/notification/cycle.go:35-37 | an operation inside its 20 s deadline is never refused for a replaced claim |
| Guarantees.TerminalResponseSettlesIff | internal/delivery/policy.go:5-23 | a terminal response dead-letters its event iff its status is within 100..599 |
| Guarantees.AnswerDecides | internal/delivery/sender.go:80-86 | an answer of 2xx delivers the event, 408, 429 and 5xx retry it while it has attempts and is under a day old, anything else ends it; the attempt is stored with that status and outcome |
| Guarantees.FailureDecides | internal/delivery/sender.go:89-99 | a send without an answer is always recorded, with the code of what failed, and retried while the event has attempts and is under a day old |
| Guarantees.OnlyContractTransitions | docs/delivery-contract.md:140-158 | no step takes an event along a transition the contract does not allow; only a replay reopens a dead letter |
| Guarantees.LifetimeClaimBound | internal/postgres/queue.go:31-46 | over its whole life, 17 generations included, an event is claimed at most 3 015 times |
| Guarantees.NoLateClaim | internal/postgres/queue.go:35 | no claim ever starts 24 h or more after creation, replayed or not |
| Guarantees.NoClaimAfterSession | internal/postgres/queue.go:36-38 | no visitor event is claimed half an hour or more after its creation |
| Guarantees.VisitorAttemptBound | internal/sandbox/store.go:161-181 | a visitor event never has more than three attempt rows |
| Guarantees.VisitorSeesPromisedStatus | docs/sandbox-contract.md:66-68 | every stored visitor attempt, in every reachable world, has the status its scenario promises for its number |
| Guarantees.SandboxStorageBound | docs/sandbox-contract.md:45-61 | at most 1 000 sessions, 20 events in each and 60 000 visitor attempt rows at any time |
| Guarantees.QuotaBounds | internal/sandbox/store.go:46-77 | at most 200 live sessions at any instant and 2 000 admissions in any hour |
| Guarantees.RolledBudgetIsExact | internal/sandbox/store.go:46-51 | once rolled, the budget equals what the current hour really admitted, in every reachable world |
| Guarantees.CreateAdmitsIff | internal/sandbox/store.go:65-72 | a session is admitted iff under 100 were admitted this hour and under 1 000 are retained, and expires half an hour after its issue |
| Guarantees.SubmitAdmitsIff | internal/sandbox/store.go:92-151 | a submission commits iff its scenario exists, its live session really owns under 20 events and the hour has room; no key stands in its way |
| Guarantees.VisitorReplayAdmitsIff | internal/sandbox/store.go:153-190 | a replay commits iff it is for an owned dead permanent failure of a live session, replayed under twice, in an hour with room |
| Schedule.NextInTime | internal/delivery/sender.go:101-116 | an attempt that ends within the slack puts the next one on schedule, or is final |
| Schedule.StepOnSchedule | internal/postgres/queue.go:19-49 | no step of any worker, visitor or operator takes an attended event off its schedule |
| Schedule.AgeNeverPreemptsEighth | internal/postgres/queue.go:109-124 | over any run in which a received event is always overdue by under 6 096 s, no claim of any worker retires it and it is a dead letter only with a terminal response or its eighth attempt on record |
| Receipts.AcceptRefinesMap | internal/postgres/store.go:27-78 | in every reachable world, whatever others commit between insert and read, receipt is an insert-if-absent map: the first digest wins, an equal one is a duplicate, another conflicts; a new row stores exactly what was received |
| Receipts.LateReplayAnswerIff | internal/postgres/replay.go:30-40 | the late read of a refused replay misreports iff the identifier was unknown at the update and received under this source since |
| Receipts.OperatorHistoryIsPermanent | docs/delivery-contract.md:152-153 | over any run receipts, operator events and their recorded attempts are never lost or rewritten |
| Receipts.OverviewCountsReceipts | internal/postgres/read.go:13-31 | each overview count is the number of the source's rows in its state, and the five add up to the number of distinct keys accepted |
| Liveness.RivalsOnlyLeave | internal/postgres/queue.go:39 | receipts, replays and retries never overtake an overdue event |
| Liveness.NoStarvation | internal/postgres/queue.go:30-41 | while an overdue event whose columns make it eligible is passed over, at most as many operations can start and succeed as it had unfinished rivals with a key no later |
| Liveness.WorkRunsOut | internal/postgres/queue.go:26-49 | without new work only so many steps can do anything but recover a lapsed lease, each using up a remaining transition |
| Liveness.SixteenTokensEach | internal/postgres/queue.go:42-49 | an event never has more than sixteen transitions left |
| Liveness.EightRecordsAtMost | internal/delivery/policy.go:25-27 | without replays at most eight attempts of an event are ever recorded, however often its lease is lost |
| Liveness.ClaimDrains | internal/postgres/queue.go:20-29 | each claim finishes ten of the overage backlog, or all of it |
| Liveness.BacklogDrains | internal/postgres/queue.go:19-29 | n overage events are gone after ceil(n / 10) claims, whatever else but replays is interleaved |
| Retention.CleanupIsSafe | internal/sandbox/cleanup.go:13-43 | cleanup never deletes an operator event, an event of a live session or one under a live claim, and leaves no dangling reference |
| Retention.NeverRevived | internal/sandbox/cleanup.go:37 | a deleted event never comes back |
| Retention.DeletedEventsRefuseRecords | internal/postgres/queue.go:84-91 | no claim on a deleted event can ever write anything again |
| Retention.BacklogOnlyLeaves | internal/sandbox/cleanup.go:13-16 | no step of anyone adds to the rows of expired sessions or leases one again |
| Retention.CleanupStep | internal/sandbox/cleanup.go:13-42 | each cleanup finishes the rows of given expired sessions or takes a hundred of them, less those it took from others |
| Retention.CleanupsDrain | internal/sandbox/cleanup.go:7-47 | over any interleaved run the events and sessions of expired sessions are gone after ceil((n + m) / 100) cleanups, m counting rows deleted for sessions that expired later |
| Quota.VisitKeepsBalance | internal/sandbox/store.go:33-57 | one transaction at any clock reading keeps the counters equal to what was charged and never moves the window back |
| Quota.QuotasHoldAtAnyClock | internal/sandbox/store.go:33-151 | over any run at any clock readings, even backwards, no window ever exceeds 100 sessions or 1 000 admissions |
| Quota.LiveSessionBound | internal/sandbox/session.go:17 | a half-hour lifetime touches two hourly windows, so at most 200 sessions are live |
| Quota.SlidingHourBound | internal/sandbox/store.go:141-151 | any hour, wherever it starts, sees at most 2 000 event and replay admissions |
| Token.HexRoundTrip | internal/sandbox/session.go:36 | the printed identifier read back in pairs gives the random bytes, so nothing is lost |
| Token.IssuedShape | internal/sandbox/session.go:25-45 | a token has 108 characters and splits back into identifier, ten-digit expiry and the MAC of both under the key and the version prefix |
| Token.IssueDomain | internal/sandbox/session.go:26-31 | issuing succeeds iff the key has 32 bytes, the second is at least 1 000 000 000 and its expiry has ten digits |
| Token.RefusedWithTenDigits | internal/sandbox/session.go:29-31 | a second whose expiry has ten digits and that is refused all the same |
| Token.TokenRoundTrip | internal/sandbox/session.go:25-74 | an issued token names its identifier at second t iff issue <= t < issue + 1800, for any key and any MAC |
| Token.AcceptedIsAuthentic | internal/sandbox/session.go:48-74 | whatever is accepted carries the MAC, under this key, of the version prefix with exactly the identifier and expiry it is accepted for |
| Token.AcceptedIff | internal/sandbox/session.go:48-74 | a token is accepted iff the key has 32 bytes, the identifier 32 hexadecimal digits, the expiry ten characters that read as a second within the next half hour, and the MAC is that of the two |
| Token.MovedMacRefused | internal/sandbox/session.go:62-65 | a MAC moved to another key, identifier or expiry is refused at every second unless the MAC function gives both the same value |
| Token.ParseIntIff | internal/sandbox/session.go:66-69 | exactly digits after at most one sign read as a number |
| Token.SignedParses | internal/sandbox/session.go:66-69 | a leading plus leaves a number as it is and a minus negates it |
| Token.NoSecondToken | internal/sandbox/session.go:48-74 | one key, identifier and expiry have one acceptable token |
| Notification.Receive | internal/notification/queue.go:78-102 | the batch is exactly the valid messages' handles in order; failed or oversized responses give an empty one |
| Notification.ValidIff | internal/notification/queue.go:133-148 | a message counts iff its body, handle and envelope are within the limits, column by column |
| Notification.HandlesCounted | internal/notification/queue.go:91-100 | the batch has one handle for every valid message |
| Notification.HandlesInOrder | internal/notification/queue.go:91-100 | every valid message's handle stands right after those of the messages before it |
| Notification.HandlesAreValidOnes | internal/notification/queue.go:133-148 | a handle is in the batch iff some valid message carries it |
| Notification.Acknowledge | internal/notification/queue.go:104-131 | one entry per handle under its index; success iff there is nothing to delete or every deletion is confirmed and none failed |
| Notification.PollFacts | internal/notification/cycle.go:31-45 | polling makes a run only when not cancelled, goes on only after work was done, and stops for the reason it gives |
| Notification.Reconcile | internal/notification/cycle.go:31-45 | the loop stops exactly at the first idle or failed run, at a cancellation, or after ten runs, and says which |
| Notification.Cycle | internal/notification/cycle.go:19-53 | hints carry no authority: for the same clock readings and replies, the runs and the final state are those of polling only; it stops at the first idle or failed run, a cancellation or ten runs, and deletes handles iff the receive was good and no run failed or was cancelled |
| Notification.CycleFits | cmd/worker/main.go:93 | a cycle whose calls keep their deadlines takes at most 215 s, inside its 220 s budget and the 300 s visibility |
| Behaviours.ClaimIsStep | internal/postgres/queue.go:14-67 | every outcome of a claim on the database object is a step of the state machine |
| Behaviours.OperationsAreSteps | internal/sandbox/store.go:59-190 | every admission, receipt and replay on the database object is a step with the same tables, never ruled out by the state |
| Behaviours.RecordIsStep | internal/postgres/queue.go:69-107 | every record of an issued claim, early, late or repeated, is a step with the same tables |
| Behaviours.CleanupIsStep | internal/sandbox/cleanup.go:7-47 | every outcome of a cleanup is a step with the same tables |
| Behaviours.AdmissionsAreTimed | internal/sandbox/store.go:141-151 | the history charges each admission to the instant it commits |
| Behaviours.RunOnceIsTurn | internal/delivery/worker.go:59-75 | the cycle's runner is the worker: every outcome of RunOnce, ties included, is the run of a turn with the same reading, claim and exchange |
| Behaviours.LateReplayAnswerDrifts | internal/postgres/replay.go:30-40 | a run in which a replay of an unknown identifier is reported as a wrong state |
| Behaviours.TerminalResponseLost | internal/delivery/sender.go:80-86 | a run in which a status of 600 counts as terminal but neither settles the event nor leaves an attempt |

## Left out

- HTTP handlers, routing, JSON decoding, the dashboard and the static site: plumbing without deep state.
  That an admission is preceded by a cleanup is therefore not part of any theorem.
- AWS calls, queue attribute checks, TLS and certificate loading, the gateway and the dialer.
- Publishing hints after commit: a hint changes no table.
- Bodies, response excerpts, request headers and signatures; idempotency is stated in terms of digests.
- Length and pattern CHECKs on text columns, and the octet length of excerpts.
- Connection and commit errors. A commit whose answer is lost is a record that took effect.
- PostgreSQL's microsecond resolution: timestamps keep Go's nanoseconds.
- A missing budget row: the migration inserts it and nothing deletes it.
- Detail and list projections, migrations runner, grants, logging and ticker scheduling.
- Notification.Cycle: waiting for a receive delays the clock readings of the runs after it by up to its
  deadline; with and without hints the runs are compared on equal readings.
- Liveness.NoStarvation: the event must be overdue by more than an instant; rows created or reopened in
  the very instant it becomes due may tie with it.
- Liveness.BacklogDrains: rows of the backlog that are still leased at the start delay it until their lease
  lapses, so it starts from the instant the last one has. Claims with an older clock reading, or that find
  rows locked, are not counted on.
- Retention.CleanupsDrain: in the same way it starts once no lease is left on the rows to delete, and counts
  on cleanups that find no row locked.
