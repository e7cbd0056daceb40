# Ogen background jobs, plans and billing: a Dafny model

Ogen writes each background job to a transactional outbox, relays it to river-service, and keeps operator-run
plan and billing tables beside it. This project models the protocols and algorithms behind that and proves what
their documentation promises, for every input, every interleaving and every place a process can stop. Code that
changes rows or fields step by step is modelled by classes and loops proved against specification functions;
protocols with several processes are state machines over their database statements and messages.

## Components

- `Outbox`: application transactions, relay passes (claim with skip-locked, send, record, commit), a network that
  loses answers and replays requests, a de-duplicating intake and retention, as one state machine. It refines a
  plain queue to which only a commit adds.
- `Relay`, `Drain`: the relay's own loops. A pass is shown to be a run of the machine above. On every schedule of
  polls that keeps committing at ever later times, finitely many failures end in an empty outbox.
- `Handover`, `Retirement`: the boot protocol that moves the old in-process River jobs to the outbox, composed with the
  `Outbox` machine, with any number of replicas booting and crashing; and exactly when River can go.
- `Latency`, `LatencyThreads`: the 256-entry ring of call durations, its 64-bit arithmetic, and its goroutines one
  memory access at a time.
- `TestDatabases`, `Decimal`: database names, one sweep, and many processes sweeping and creating at once.
- `Assignments`, `TierVersions`, `TierOutcomes`, `TierLifecycle`: the append-only assignment history, the version
  transactions, exactly when each commits and what it leaves, and what every run of them keeps.
- `Variants`, `VariantMappings`: suggestions, saves, confirmations and the two-way variant map.
- `Payments`: keyset pagination over a table that changes between pages.
- `EmailRollup`: engagement columns rebuilt from webhooks in any order.
- `AudioWindows`, `AudioRun`, `AudioGates`, `AudioBounds`, `AudioReplay`, `AudioRetry`, `EmbedLoop`: one audio run,
  resumed from its rows after every cut and taken up again when its failed segments are retried, with every call of
  the embedding loop a step of its own.
- `Common`, `Text`: shared datatypes and string operations.

## Where the code and its documentation part

The model follows the code. The lemmas named state each point.

- `JOBS_DISABLED` lets the pipeline check pass with nothing configured, so River can be retired with no pipeline
  behind it (`Handover.PassesUnconfigured`). River jobs of kinds ogen no longer enqueues get no row, and one live job
  whose args do not decode stops every retirement (`Handover.OneRowPerJob`, `Retirement.CanDropIff`). A zero schedule becomes no schedule
  (`Handover.DeliveredAsScheduled`).
- Superseding with reassignment equals publishing and then retiring onto the new version, except that only the single
  transaction gets past the one-on-sale rule when both versions are purchasable, and only the two steps accept a
  version of another tier (`TierLifecycle.SupersedeIsPublishThenRetire`).
- Live tenants can end up on a retired or draft version: the plain reassignment path does not look at the version's
  status, and a forced retirement does not look for tenants (`TierLifecycle.PlainReassignIgnoresStatus`). A run keeps
  them on active versions exactly when each commit meets the guard its path leaves out
  (`TierLifecycle.AlwaysOnActiveIff`).
- Suggestions are not only for prices exactly one free variant matches: several matches can be told apart by names,
  and a sole match is dropped when another price wants it (`Variants.ProposedVersusContract`); both happen
  (`Variants.NarrowedHappens`, `Variants.WantedHappens`). The variant map's two directions can disagree when two price
  ids trim to the same one (`VariantMappings.BothWaysIff`).
- A bounce and a complaint share the top rank, so whichever arrives first wins (`EmailRollup.OrderMattersIff`). The
  unconditional status update, which no job or handler calls, would regress a row when it writes a lower rank
  (`EmailRollup.NeverFallsIff`).
- A payment whose time is rewritten between two pages can be listed under both (`Payments.MovedIsListedTwice`), or,
  rewritten to before the cursor, never (`Payments.MovedBackIsSkipped`). While its time stays as it is, it is listed
  at most once (`Payments.FixedListedAtMostOnce`), and exactly once if every page's table shows it
  (`Payments.ListedOnce`).
- On the last attempt a probe or normalize that fails for now still asks for a retry
  (`AudioBounds.LastAttemptDiscardsIff`); without one, and uncut, the attempt always settles the job
  (`AudioBounds.LastAttemptSettles`). A result stored but not checkpointed is asked for again
  (`AudioRun.UncheckpointedIsLost`).
- A segment that failed is left alone until an operator retries the run's failed segments
  (`AudioRun.FailedNeedsRetry`); the retried run can always complete (`AudioRetry.RetryCompletes`). A retry can open a
  segment in front of done ones (`AudioRetry.PrefixBreaks`), so "resumes from the first incomplete segment" does not
  mean that all before it are done and all after it open (`AudioRun.AlwaysPrefixIff`). What is done is never asked for
  again (`AudioRun.DoneNeverAsked`).
- The run's cost is added up in a copy of its row that the step planning the first embedding call throws away. So a
  completed run that embedded anything records what its row said before: zero (`AudioReplay.CostIsLost`), or, if it
  was retried, the tally of its last partial settlement, without the segments heard since
  (`AudioRetry.TallyIsRecorded`). `AudioReplay.CostIsKeptIff` says when that is the sum all the same. The segments' own
  costs are kept.
- Utterances of two segments with equal start and index come in no fixed order, which can decide the transcript
  (`AudioReplay.TiedRowsDecide`). Without such ties, and only then, the query has one answer
  (`AudioReplay.OneListingIff`); the transcript is determined exactly when all answers assemble to the same chunks
  (`AudioReplay.OneTranscriptIff`). It is read by a second query, after the embedding.
- The sweep is safe exactly on one host without pid reuse (`TestDatabases.SafeIff`).

## Assumptions

- Identifiers the code draws at random are fresh. River-service keeps its de-duplication records for ever.
- Database transactions are atomic, the exclusion and unique constraints hold, and `now()` is a transaction's start.
- A query's answer is given to a method as a parameter constrained to be that query's answer.

## Model

| member | source | states |
|---|---|---|
| `Outbox.StepKeepsInv` | src/jobs/outbox/relay.go:140-258 | every statement, message, crash and cleanup keeps rows, locks, uncommitted updates, sent requests and the intake in agreement |
| `Outbox.EnqueueKeeps` | gen/jobs/v1/jobs_grpc.pb.go:48-54 | an enqueue keeps one job per key and never touches an earlier job |
| `Outbox.EnqueueAgain` | gen/jobs/v1/jobs_grpc.pb.go:48-50 | after any run, a request delivered again under a key that once made a job gets that job, flagged as a duplicate, and changes nothing |
| `Outbox.WriteKeepsInv` | src/jobs/outbox/outbox.go:74-104 | a write under a dedupe key, inserted or dropped, keeps the keys of kept and pending rows pairwise different |
| `Outbox.WriteInserts` | src/jobs/outbox/outbox.go:74-104 | a write inserts its row, due at its transaction's start, unless a kept row or one the transaction is about to commit carries its key: then, and only then, it changes nothing |
| `Outbox.WrittenIsQueued` | src/jobs/outbox/outbox.go:55-72 | a write whose key nothing carries: once its transaction commits, whatever came between, the row is there as written, and its request is queued from then on in every run |
| `Outbox.KeyedWriteLeavesOne` | src/jobs/outbox/outbox.go:55-72 | a write under a key, inserted or dropped: once its transaction commits, exactly one kept row carries the key in every state of every run until a cleanup deletes it |
| `Outbox.EnqueuesInThree` | src/jobs/outbox/outbox.go:50-53 | from any state, begin, write and commit add exactly the new row, due at once, for any key nobody carries or waits with |
| `Outbox.StepRefinesQueue` | gen/jobs/v1/jobs_grpc.pb.go:31-54 | each step leaves the plain queue alone, except a commit, which adds exactly its rows under new keys |
| `Outbox.RunRefinesQueue` | gen/jobs/v1/jobs_grpc.pb.go:31-54 | over any run the queue grows by exactly what the commits in it added |
| `Outbox.OutboxRefinesQueue` | gen/jobs/v1/jobs_grpc.pb.go:31-54 | from an empty database the rows yet to be delivered and the jobs are together exactly the committed requests |
| `Outbox.ExactlyOnce` | gen/jobs/v1/jobs_grpc.pb.go:31-54 | each committed row yields at most one job, each job comes from one committed row with its request, a row marked sent has its job, and committed = undelivered + jobs, retention included |
| `Outbox.OneRowPerKey` | src/jobs/outbox/outbox.go:55-72 | in every run at most one kept row carries a dedupe key |
| `Outbox.ClaimIff` | src/jobs/outbox/relay.go:168-189 | a pass may claim exactly the free due rows, once each, longest due first and up to its limit, leaving none out while there is room |
| `Outbox.OneAtATime` | src/jobs/outbox/relay.go:193-227 | a pass sends its next row as it is, once, then waits, and hears of a delivery only when the job is there |
| `Outbox.DeliveryNotes` | src/jobs/outbox/relay.go:193-242 | a delivery is noted with the pass's start and the job's id, the pass goes on with the next row, and nothing shows yet |
| `Outbox.FailureNotes` | src/jobs/outbox/relay.go:193-242 | a failure is noted with one attempt more and a wait of one second to five minutes, the rest of the batch is let go, and nothing shows yet |
| `Outbox.PassEnds` | src/jobs/outbox/relay.go:140-166 | a commit shows exactly what the pass noted, a crash nothing, and both let go of exactly what it held |
| `Outbox.CleanupDeletes` | src/jobs/outbox/relay.go:254-259 | retention deletes exactly the rows delivered longer ago than it keeps |
| `Relay.BackoffSeconds` | src/jobs/outbox/relay.go:244-252 | the doubling loop computes the smaller of two to the power of attempt - 1 and 300, for attempt 0 too |
| `Relay.TotalWaitClosedForm` | src/jobs/outbox/relay.go:244-252 | n failures wait 2^n - 1 seconds in all up to nine, and 511 + 300(n - 9) beyond |
| `Relay.RelayWorker.RelayOnce` | src/jobs/outbox/relay.go:135-166 | a pass delivers in order, stops after the first failure, counts what it recorded; uncommitted it leaves the table but not the intake as it was |
| `Relay.HeadIsARun` | src/jobs/outbox/relay.go:193-242 | one send and its record, whether refused, lost or answered, is a run of the machine's steps |
| `Relay.PassIsARun` | src/jobs/outbox/relay.go:135-166 | every pass, committed or not, is a run of the machine, so all that holds of its runs holds of the loop |
| `Drain.AttemptProgress` | src/jobs/outbox/relay.go:193-242 | an attempt does exactly one unit of the work left and changes no other row's total tries |
| `Drain.PassProgress` | src/jobs/outbox/relay.go:135-166 | a pass reduces the work left by exactly the rows it reports |
| `Drain.PollsAreBounded` | src/jobs/outbox/relay.go:112-124 | any series of productive polls is no longer than the work left, and total tries per row are conserved |
| `Drain.FailureWaits` | src/jobs/outbox/relay.go:236-252 | a failure puts the row off by one second doubled for each earlier failure, and by 300 from the tenth on |
| `Drain.PollsWait` | gen/jobs/v1/jobs_grpc.pb.go:51-54 | over any polls a row's next attempt moves by at least the added-up waits of its failures |
| `Drain.OneBatch` | src/jobs/outbox/relay.go:140-166 | a pass lowers the work left by the rows it reports, and one that falls short of the batch recorded a failure or left nothing due |
| `Drain.DrainDue` | src/jobs/outbox/relay.go:112-124 | the drain loop ends, having delivered for good what it delivered, with an uncommitted batch, a failure recorded or nothing due left, and after at most one poll more than full batches of the work there was |
| `Drain.ClaimExists` | src/jobs/outbox/relay.go:168-189 | there is always an answer to the claim query, non-empty when a row is due |
| `Drain.DrainsEverything` | gen/jobs/v1/jobs_grpc.pb.go:51-54 | whatever the poll times, the claims and the polls that fail to commit: if each row fails finitely often and polls keep committing at ever later times, from some poll on every row is delivered, with no more attempts than failures |
| `Drain.DrainsThroughTrouble` | gen/jobs/v1/jobs_grpc.pb.go:51-54 | such schedules exist with polls that do not commit, and on one a row refused and lost any number of times is delivered |
| `Handover.RequireJobPipeline` | src/transport/server/outbox.go:50-78 | passes exactly when jobs are disabled or all four settings are non-blank, and otherwise names exactly the blank ones |
| `Handover.RetireTx.MoveRiverJobs` | src/jobs/queues/retire_river.go:118-160 | writes the moving jobs up to the first whose args do not decode, and fails exactly when there is one |
| `Handover.WrittenPicks` | src/jobs/queues/retire_river.go:139-158 | what is written is, in order and once each, the request of every listed job of a moving kind |
| `Handover.DeliveredAsScheduled` | src/jobs/queues/outbox_args.go:16-20 | after any run, what river-service holds for a moved row is a live River job of a moving kind with its args and time, the time unset exactly when it was the zero time |
| `Handover.StepKeepsInv` | src/jobs/queues/retire_river.go:62-109 | every boot, crash, lock and move step keeps each open retirement's rows the image of the jobs it has passed |
| `Handover.RunConserves` | cmd/server/main.go:107-119 | over any run the queue grows by the application's commits and, once, by the retirement's rows |
| `Handover.HandoverConserves` | cmd/server/main.go:107-119 | River is gone exactly when one retirement committed, by a replica whose check passed, and the queue is the application's commits plus its rows, disjoint |
| `Handover.OneRowPerJob` | src/jobs/queues/retire_river.go:55-61 | each job live at the drop has one row if its kind moves and none otherwise, and what river-service makes of the row is that job |
| `Handover.UnfinishedGetOneRow` | src/jobs/queues/retire_river.go:16-18 | in terms of River's states: once River is gone each job that was available, running, retryable, scheduled or waiting and whose kind moves has exactly one row, queued with its kind, args and time, and no other job has any |
| `Handover.DropMovesWhatIsThere` | src/jobs/queues/retire_river.go:62-109 | what is moved is what River held at the drop itself, in rows that appear with the drop |
| `Retirement.PassesIff` | src/transport/server/outbox.go:50-78 | the check passes exactly with jobs disabled or when each of the four settings holds something besides white space |
| `Retirement.AnythingMayHappen` | src/jobs/queues/retire_river.go:62-109 | in every reachable state a boot may fail, old clients change the jobs unless a boot holds their table, and the application uses the outbox freely |
| `Retirement.FailLeavesNoTrace` | src/jobs/queues/retire_river.go:62-109 | a boot that fails anywhere before its commit leaves River, the rows and the queue as they were, and lets go of its locks |
| `Retirement.NothingStaysOpen` | src/jobs/queues/retire_river.go:62-109 | whether it finds River gone, drops it or fails, a boot leaves no transaction, insert or lock of its own behind |
| `Retirement.OneMigrates` | src/jobs/queues/retire_river.go:62-109 | in every run no two boots are in their transactions at once, but for those whose pool has one connection |
| `Retirement.DropNeedsDecoding` | src/jobs/queues/retire_river.go:139-158 | a run in which old clients are quiet drops River only if every unfinished job of a moving kind decodes |
| `Retirement.CanRetire` | src/jobs/queues/retire_river.go:62-109 | then a replica that passes the check and finds nothing locked can retire River by itself, from any state |
| `Retirement.CanDropIff` | src/jobs/queues/retire_river.go:139-158 | so River can still be dropped exactly when every unfinished job of a moving kind decodes |
| `Latency.LatencyRing.Add` | src/jobs/metrics.go:154-162 | after any adds the ring stands for everything seen: the last 256, rotated to the index, full from the 256th |
| `Latency.LatencyRing.Avg` | src/jobs/metrics.go:164-179 | equals the average of the plain list of the last 256, whatever the rotation |
| `Latency.RingAdd` | src/jobs/metrics.go:154-162 | one write, index step and flag keep the ring the rotated window of the longer list |
| `Latency.RingSum` | src/jobs/metrics.go:167-177 | the loop's count and sum are the window's |
| `Latency.QuoQuo` | src/jobs/metrics.go:178 | the two successive truncating divisions are one |
| `Latency.AverageExactIff` | src/jobs/metrics.go:164-179 | the result is the true average in whole milliseconds exactly when the sum fits 64 bits |
| `Latency.AverageBetween` | src/jobs/metrics.go:164-179 | while the sum fits, the result lies between the window's least and greatest, in milliseconds |
| `Latency.SmallNeverOverflow` | src/jobs/metrics.go:164-179 | non-negative durations up to a 256th of the largest never overflow the sum |
| `LatencyThreads.StepKeepsInv` | src/jobs/metrics.go:154-179 | each single access by any goroutine keeps memory what the lock holder's progress makes of the serial history |
| `LatencyThreads.CallsAreSerial` | src/jobs/metrics.go:139-179 | for every interleaving the calls have a serial order they agree with, and no Avg inside the lock sees a wrapped index before the full flag |
| `LatencyThreads.CallsAreLogged` | src/jobs/metrics.go:139-179 | in every run the calls begun are exactly those ended in the serial order and those still running, each duration counted |
| `LatencyThreads.WaitsForTheLockOnly` | src/jobs/metrics.go:154-179 | every access is in bounds, every division by a positive count, and a call waits exactly when it asks for a taken lock |
| `LatencyThreads.NeverStuck` | src/jobs/metrics.go:139-179 | while a call is running some call can go on |
| `LatencyThreads.GoesOn` | src/jobs/metrics.go:154-179 | each access of a call brings it nearer its end, within 260 of them, and moves no other call |
| `LatencyThreads.MidwayLooksEmpty` | src/jobs/metrics.go:157-161 | between its two writes the 256th add shows index zero and no full flag, so the lock is what hides it |
| `Decimal.ParseFormat` | src/pgtest/pgtest.go:80-87 | a printed number reads back as itself, within 64 bits and only there |
| `Decimal.ParseIntIff` | src/pgtest/pgtest.go:80-87 | a text reads as a number exactly when it prints it, up to a plus sign and leading zeros, within 64 bits |
| `TestDatabases.NameRoundTrip` | src/pgtest/pgtest.go:72-87 | a printed name parses back to its pid |
| `TestDatabases.NamesDiffer` | src/pgtest/pgtest.go:125 | distinct pid and sequence pairs give distinct names |
| `TestDatabases.AliveIff` | src/pgtest/pgtest.go:75-99 | the check spares exactly the names that are the prefix, a positive number and an underscore, the number being the own or a running pid |
| `TestDatabases.Server.SweepStale` | src/pgtest/pgtest.go:50-70 | drops exactly the listed, unused databases whose creator is not alive |
| `TestDatabases.StepKeepsInv` | src/pgtest/pgtest.go:44-99 | a name about to be dropped never carries the pid of a running process, now or later |
| `TestDatabases.SweepIsSafe` | src/pgtest/pgtest.go:44-49 | under every interleaving no sweep drops a database whose creator runs, even one idle after its CREATE |
| `TestDatabases.SweepReclaims` | src/pgtest/pgtest.go:50-70 | a process can always sweep to the end, and left alone it drops every unused database with the prefix whose name carries no running pid, and nothing else of that prefix |
| `TestDatabases.NothingWaits` | src/pgtest/pgtest.go:44-70 | no process ever waits for another to list, check, drop or finish, and connections and exits come at any time |
| `TestDatabases.SafeIff` | src/pgtest/pgtest.go:44-49 | the sweep never drops a running creator's database exactly when there is one host and no pid is reused |
| `TestDatabases.TwoHostsHarm` | src/pgtest/pgtest.go:95-98 | with any two hosts on the server some run from empty tables ends in a sweep dropping a running creator's database |
| `TestDatabases.ReusedPidHarms` | src/pgtest/pgtest.go:65-68 | on any host, with pids reused, so does some run: the check was made before the new process started |
| `Assignments.LiveCanMove` | src/infra/repository/tenant_tier_versions.go:484-521 | moving all live rows of a version meets a constraint exactly when one starts at or after the move |
| `Assignments.MoveKeepsSeparate` | src/infra/database/migrations/20260911000002_tier_versions.up.sql:44-58 | a move keeps every tenant's ranges non-empty and apart |
| `Assignments.MoveKeepsPast` | src/infra/database/migrations/20260911000002_tier_versions.up.sql:134-144 | no earlier moment, and no tenant left out, resolves differently after a move |
| `Assignments.MovePutsOnTarget` | src/infra/repository/tenant_tier_versions.go:461-466 | from the move on the moved tenants resolve to the target alone |
| `Assignments.MoveCounts` | src/infra/repository/tenant_tier_versions.go:461-466 | the source is left with no live row, the target gains them all, every other version keeps its own |
| `Assignments.MoveKeepsTenants` | src/infra/repository/tenant_tier_versions.go:494-521 | the same tenants have an open range before and after |
| `Assignments.MoveConserves` | src/infra/repository/tenant_tier_versions.go:494-521 | a move keeps the number of open ranges |
| `TierVersions.MoveTenants` | src/infra/repository/tenant_tier_versions.go:484-522 | the tenant-by-tenant loop succeeds exactly when every live range starts earlier, and then is one simultaneous move |
| `TierOutcomes.MigrateMoves` | src/infra/repository/tenant_tier_versions.go:467-523 | each open assignment is closed at the time and followed by an open one on the target, whose tier its tenant takes; every other row and tenant is as it was |
| `TierVersions.Repository.MigrateOpenAssignments` | src/infra/repository/tenant_tier_versions.go:467-523 | moves every live tenant and counts them, or changes nothing and says why |
| `TierVersions.Repository.Publish` | src/infra/repository/tenant_tier_versions.go:277-321 | supersedes, publishes and moves as one transaction with the outcomes of the four rows below, or leaves the store as it was |
| `TierOutcomes.PublishSucceedsIff` | src/infra/repository/tenant_tier_versions.go:277-321 | a plain publish goes through for exactly the drafts that are not for sale or whose tier has no active purchasable version, activates the draft and touches nothing else |
| `TierOutcomes.SupersedeSucceedsIff` | src/infra/repository/tenant_tier_versions.go:344-396 | a superseding publish goes through exactly when the superseded version is another active one of the tier, forced, emptied or without open assignment, nothing else of the tier is on sale if the draft is for sale, and with reassignment every open range starts earlier; a refusal names what is so |
| `TierOutcomes.SupersedeLeaves` | src/infra/repository/tenant_tier_versions.go:277-321 | it leaves the draft active, the superseded version retired, and its tenants all moved and counted or all left, and nothing else changed |
| `TierOutcomes.SaleIsReachable` | src/infra/repository/tenant_tier_versions.go:248-321 | a tier with nothing on sale can always go on sale: creating a fresh purchasable draft and publishing it adds exactly that version |
| `TierLifecycle.SupersedeFreesTheTier` | src/infra/repository/tenant_tier_versions.go:344-376 | superseding keeps history and the draft, and takes the tier off sale exactly when the superseded version was the one on sale |
| `TierVersions.Repository.Retire` | src/infra/repository/tenant_tier_versions.go:419-459 | retires with move, force or an empty version only, or leaves the store as it was |
| `TierOutcomes.RetireSucceedsIff` | src/infra/repository/tenant_tier_versions.go:419-459 | goes through exactly for an active version that is emptied onto another active one with every open range earlier, or forced, or without open assignment |
| `TierOutcomes.RetireLeaves` | src/infra/repository/tenant_tier_versions.go:419-459 | it leaves the version retired and its tenants all moved and counted or all left, and nothing else changed |
| `TierLifecycle.DeleteUndoesCreate` | src/infra/repository/tenant_tier_versions.go:248-255 | deleting a draft just created restores the store |
| `TierLifecycle.LastEditIsPublished` | src/infra/repository/tenant_tier_versions.go:257-275 | of two edits the last one counts, and a publish sells what it wrote |
| `TierLifecycle.PublishedIsFinal` | src/infra/repository/tenant_tier_versions.go:402-417 | once published, in every later state: unchanged but for retirement, edits and deletes refused, its number taken |
| `TierVersions.Repository.Reassign` | src/infra/repository/tenant_tier_assignments.go:156-204 | closes the open range and opens the new one, or with no version changes the tier alone, or nothing |
| `TierOutcomes.ReassignSucceedsIff` | src/infra/repository/tenant_tier_assignments.go:156-204 | an absent tenant is reported and nothing changes; otherwise it goes through exactly with a known tier and, for a version, one that exists and a history with room, and then changes the tenant's tier and its open row alone, without a version its tier alone |
| `TierOutcomes.ReassignActiveSucceedsIff` | src/infra/repository/tenant_tier_assignments.go:127-144 | the checked path needs the version active as well, and gives the tenant that version's own tier |
| `TierLifecycle.ReassignPlaces` | src/infra/repository/tenant_tier_assignments.go:127-144 | from then on the tenant resolves to the active version and has its tier; earlier moments and other tenants are as before |
| `TierLifecycle.NextKept` | src/infra/database/migrations/20260911000002_tier_versions.up.sql:61-98 | every transaction keeps numbers unique, one version on sale a tier, published versions frozen but for retirement, and history append-only |
| `TierLifecycle.RunKept` | gen/plans/v1/plans.pb.go:1110-1115 | so does every run, from first to last |
| `TierLifecycle.PastIsFixed` | src/infra/database/migrations/20260911000002_tier_versions.up.sql:134-144 | later transactions never change which version a tenant was on at an earlier time |
| `TierLifecycle.SupersedeIsPublishThenRetire` | gen/plans/v1/plans.pb.go:985-995 | supersede with reassignment and publish-then-retire agree whenever both succeed, and exactly when each does but not the other |
| `TierLifecycle.PublishChangesOnly` | src/infra/repository/tenant_tier_versions.go:277-321 | the draft goes active as drafted, the superseded version of its tier retires, and no other version changes |
| `TierLifecycle.SupersedeMoves` | gen/plans/v1/plans.pb.go:985-995 | the reported count is the old version's live rows, all of them move, no other count changes |
| `TierLifecycle.SupersedePlaces` | gen/plans/v1/plans.pb.go:985-995 | afterwards the moved tenants are on the published version and its tier, everyone else where they were |
| `TierLifecycle.SupersedeConflicts` | src/infra/repository/tenant_tier_versions.go:308-314 | the move fails exactly when a live range starts at or after the publish and nothing else was wrong |
| `TierLifecycle.NextKeepsLive` | src/infra/repository/tenant_tier_versions.go:431-447 | a transaction without force or unchecked assignment keeps live tenants on active versions |
| `TierLifecycle.LiveStaysOnActive` | gen/plans/v1/plans.pb.go:1110-1115 | over whole runs of such transactions no retired version has a live tenant |
| `TierLifecycle.ReassignKeepsLiveIff` | src/infra/repository/tenant_tier_assignments.go:156-204 | an unchecked assignment keeps live tenants on active versions exactly when its version is active |
| `TierLifecycle.NextKeepsLiveIff` | src/infra/repository/tenant_tier_versions.go:431-447 | so does each committing transaction exactly when it meets its guard: an active target, or no live tenant under a forced retirement |
| `TierLifecycle.AlwaysOnActiveIff` | gen/plans/v1/plans.pb.go:1110-1115 | all along a run live tenants are on active versions exactly when every commit in it meets its guard |
| `Variants.BestVariant` | src/usecase/billing/variants.go:470-487 | finds the variant that fits better by names than every other, or none when nothing fits or the best tie |
| `Variants.SuggestVariantMappings` | src/usecase/billing/variants.go:447-492 | proposes exactly the unmapped prices with one best free variant no other price wants, each price and variant once |
| `Variants.UsedOnce` | src/usecase/billing/variants.go:488-491 | the tally of uses drops exactly the variants two prices are after |
| `Variants.PassesForBothIff` | src/domain/billing/mapping.go:31-53 | a variant that passes for one price passes for another exactly when interval, amount and currency agree and no required trial is missing |
| `Variants.TierNameWins` | src/usecase/billing/variants.go:494-507 | a product that names the tier outranks any that does not |
| `Variants.FitsIff` | src/domain/billing/mapping.go:31-53 | a variant is considered for a price exactly when no price of the mode has it and it sells this one |
| `Variants.ProposedByNames` | src/usecase/billing/variants.go:447-507 | by names alone: proposed is a fitting variant preferred to every other that fits, by tier name and then by interval, and preferred so by no other price |
| `Variants.IntervalDecides` | src/usecase/billing/variants.go:494-507 | of two fitting variants that agree on the tier's name only one that alone names the price's interval can be proposed, and neither when they agree on that too |
| `Variants.MonthIsProposed` | src/usecase/billing/variants.go:494-507 | of "Month" and "Annual", otherwise alike, a monthly price gets "Month" proposed |
| `Variants.ProposedVersusContract` | gen/billing/v1/billing_grpc.pb.go:107-110 | proposed and exactly-one-match agree except for a price narrowed by names and a sole match that is wanted twice |
| `Variants.NarrowedHappens` | src/usecase/billing/variants.go:470-507 | two variants fit a price, a product name singles one out, and it is proposed |
| `Variants.WantedHappens` | src/usecase/billing/variants.go:488-491 | one variant is the sole match of two prices, and neither gets it proposed |
| `VariantMappings.UnmapUndoesMap` | src/usecase/billing/variants.go:334-387 | unmapping a price that had no variant before its mapping restores the table, whatever either call read |
| `VariantMappings.SavedIsChecked` | gen/billing/v1/billing_grpc.pb.go:101-106 | a save that goes through changes one slot, for a sellable price and a catalog variant that sells it, or with the catalog unreadable |
| `VariantMappings.SaveSucceedsIff` | src/usecase/billing/variants.go:334-412 | a save goes through exactly with a reason, a listed price and, unless it unmaps, a sellable one with a variant that sells it and no other price of the mode has; what the price had before is no obstacle, and its slot alone changes |
| `VariantMappings.SeedFills` | src/infra/repository/billing_variants.go:58-105 | the import fills an empty mode with exactly the known prices, or does nothing where the mode has rows or two of them share a variant |
| `VariantMappings.ApplyKeepsInjective` | src/infra/repository/billing_variants.go:32-105 | a save checked against any old view, a seed or a cascade keeps one price per variant and mode |
| `VariantMappings.EditsKeepInjective` | gen/billing/v1/billing_grpc.pb.go:97-110 | so does any sequence of them |
| `VariantMappings.ProposedIsSound` | src/usecase/billing/variants.go:389-412 | every proposal passes the checks a save makes |
| `VariantMappings.SuggestionsConfirm` | gen/billing/v1/billing_grpc.pb.go:107-110 | all proposals of one call can be confirmed in any order, and the table grows by exactly them |
| `VariantMappings.NewVariantMap` | src/domain/billing/variants.go:19-35 | accepts exactly non-blank entries with distinct variants, in whatever order the map is read |
| `VariantMappings.BothWaysIff` | src/domain/billing/variants.go:19-35 | the two directions invert each other exactly when no two price ids trim alike |
| `Payments.TokenRoundTrip` | src/usecase/billing/payments.go:139-156 | a token reads back as the row it was made of, for 64-bit times and non-empty ids and only those |
| `Payments.ListPayments` | src/usecase/billing/payments.go:111-137 | a page is the next rows past the cursor, with a token exactly when more remain, or a refused token |
| `Payments.ListingAscends` | src/usecase/billing/payments.go:139-141 | across pages and table changes keys only ascend, so none is listed twice |
| `Payments.ListedOnce` | gen/billing/v1/billing_grpc.pb.go:111-115 | a row present under its key throughout is listed exactly once |
| `Payments.PagesAreTheListing` | gen/billing/v1/billing_grpc.pb.go:111-115 | over an unchanged table the pages are the whole sorted listing, for any page sizes |
| `Payments.TokenAcceptedIff` | src/usecase/billing/payments.go:139-156 | the token of a page is accepted by the next call exactly when its last row has a 64-bit time and an id |
| `Payments.WalkIsTheListing` | src/usecase/billing/payments.go:111-156 | passing the token texts back over an unchanged table: none is refused, and what comes back is exactly the visible payments of the mode from the first time up to the last, by time and then by id |
| `Payments.WalkListsOnce` | gen/billing/v1/billing_grpc.pb.go:111-115 | passing them back while the table changes: a row present under its key throughout comes back exactly once |
| `Payments.ListingEnds` | gen/billing/v1/billing_grpc.pb.go:111-115 | following the tokens takes at most one call more than there are keys |
| `Payments.MovedIsListedTwice` | src/infra/repository/billing_payments.go:34-56 | a payment whose time is rewritten between pages can be listed under both keys |
| `Payments.MovedBackIsSkipped` | src/infra/repository/billing_payments.go:34-56 | a payment whose time is rewritten to before the cursor is never listed, though every table shows it |
| `Payments.FixedListedAtMostOnce` | src/infra/repository/billing_payments.go:34-56 | a payment whose time is the same in every table that has it is listed at most once |
| `EmailRollup.FoldNeverRegresses` | gen/email/v1/email.pb.go:34-38 | no prefix of the events outranks the whole |
| `EmailRollup.FoldIsFurthest` | gen/email/v1/email.pb.go:34-38 | the status is the furthest state reached, and one that was reached |
| `EmailRollup.PositiveChain` | gen/email/v1/email.pb.go:34-38 | without a bounce or complaint: clicked, else opened, else delivered, else the start, in any order and number, and delays count for nothing |
| `EmailRollup.FirstTerminalWins` | src/domain/models/email_log.go:32-60 | the first bounce or complaint to arrive makes the status bounced or complained, whatever came before and comes after |
| `EmailRollup.OrderDoesNotMatter` | gen/email/v1/email.pb.go:34-38 | reordered and repeated events give the same status unless a bounce and a complaint compete |
| `EmailRollup.OrderMattersIff` | src/domain/models/email_log.go:32-60 | the order decides exactly when both terminal kinds arrive below their rank |
| `EmailRollup.Scan` | src/infra/repository/email_events.go:93-123 | the scan finds the counts, the earliest set times, the latest event and the furthest state |
| `EmailRollup.TimelineExists` | src/infra/repository/email_events.go:80-92 | whatever events are stored, as long as their moments and keys tell them apart, the query has an answer |
| `EmailRollup.RecomputeIsAdvance` | src/infra/repository/email_events.go:74-131 | rebuilding from all events moves the status just as the one new event would |
| `EmailRollup.EmailLog.Record` | src/infra/repository/email_events.go:35-59 | the columns stay those of the stored events, and a redelivery changes nothing |
| `EmailRollup.NeverFallsIff` | src/infra/repository/email_logs.go:72-78 | along any rebuilds and unconditional updates the status never falls in rank exactly when no update writes a lower one |
| `EmailRollup.RebuildsFold` | src/infra/repository/email_logs.go:72-78 | rebuilds one event at a time are the fold over the events, and an unconditional update replaces whatever they gave |
| `EmailRollup.ArrivalOrderDoesNotMatter` | src/infra/repository/email_events.go:74-79 | the same webhooks in any order and number give the same counts, first times and, but for the tie, status |
| `EmailRollup.RedeliveryIsIgnored` | src/infra/repository/email_events.go:35-59 | after any webhooks, one seen before changes nothing and a new one is stored and moves the status as its kind says |
| `AudioWindows.SplitWindows` | src/jobs/queues/process_audio.go:867-896 | the windows cover the recording end to end, full but for the last, each starting an overlap before the last one's end |
| `AudioWindows.WindowsUnique` | src/jobs/queues/process_audio.go:867-896 | one recording and one pair of limits give one list of windows |
| `AudioWindows.CaughtWhole` | src/jobs/queues/process_audio.go:867-870 | every utterance no longer than the overlap lies whole in one window |
| `AudioWindows.KeptOrCovered` | src/jobs/queues/process_audio.go:914-928 | every spoken utterance is kept or has its middle before the end of one kept |
| `AudioWindows.KeptIsSelected` | src/jobs/queues/process_audio.go:914-928 | over indices: each utterance picked is speech, not blank, and has its middle at or after the end of every earlier pick; each left out is silent, blank, or has its middle before the end of an earlier pick |
| `AudioWindows.AssembleChunks` | src/jobs/queues/process_audio.go:908-957 | the two loops compute the specified chunks, which hold exactly the selected utterances in order, cut into runs of the sizes below |
| `AudioWindows.AssembledTranscribes` | src/jobs/queues/process_audio.go:908-957 | the chunks are the selected utterances cut into consecutive runs: each has their trimmed texts, starts where its first starts and ends where its last ends |
| `AudioWindows.ChunksHoldTheTexts` | src/jobs/queues/process_audio.go:908-912 | no utterance is lost, split or moved by packing and merging |
| `AudioWindows.ChunkSizes` | src/jobs/queues/process_audio.go:930-956 | every chunk but the last closes with the utterance that brings it to 4000 characters, and the last is shorter than 200 only if it is the only one, and reaches 4000 otherwise only with a short tail merged in |
| `AudioWindows.WordingIff` | src/jobs/queues/ingest_pipeline.go:293-302 | a chunk is embedded exactly when one of its texts has a character that is neither control, blank nor zero-width |
| `AudioRun.StepKeepsInv` | src/jobs/queues/process_audio.go:212-445 | every step, cut and retry keeps the rows the image of the checkpointed results, and the run's cost the tally of its last partial settlement until it completes |
| `AudioRun.AsksForTheFirst` | src/jobs/queues/process_audio.go:390-414 | the segment asked for is the first open one, and all after it are open exactly when the settled ones come first |
| `AudioRun.RunKeepsDone` | gen/audio/v1/audio_grpc.pb.go:56-60 | in every run, cut and retried at will, a done segment keeps its window, cost and utterances |
| `AudioRun.DoneNeverAsked` | gen/audio/v1/audio_grpc.pb.go:56-60 | and is never asked for again |
| `AudioRun.RunKeepsSettled` | src/jobs/queues/process_audio.go:394-398 | in every run without a retry a failed segment stays failed too |
| `AudioRun.AlwaysPrefixIff` | src/transport/handlers/assets_audio.go:414-426 | the settled segments form a prefix all along a run exactly when no retry in it opens a failed one that has a done one after it |
| `AudioBounds.StepUsesFuel` | src/jobs/queues/job_steps.go:14-21 | every step lowers the measure of attempts and steps left |
| `AudioBounds.RunIsBounded` | gen/jobrpc/v1/jobrpc.pb.go:664-678 | a job never exceeds its attempts and makes at most 4n + 4k + 14 steps an attempt, for n segments and at most k chunks to embed, each embedding call two steps; each retry is one job more |
| `AudioBounds.RowsSuffice` | src/jobs/queues/ingest_steps.go:156-163 | the chunks to embed are never more than the utterances stored |
| `AudioBounds.CanMove` | src/jobs/queues/process_audio.go:212-245 | in every state before the end something other than a cut or a fault can happen |
| `AudioBounds.LastAttemptSettles` | gen/jobrpc/v1/jobrpc.pb.go:675-678 | every last attempt that is neither cut nor meets a failing probe or normalize can stop only with the job settled, within 4n + 4k + 13 steps |
| `AudioBounds.LastAttemptDiscardsIff` | gen/jobrpc/v1/jobrpc.pb.go:675-678 | the last attempt ends unsettled exactly when it is cut or the probe or normalize fails for now |
| `AudioRun.FailedNeedsRetry` | src/jobs/queues/process_audio.go:394-398 | until failed segments are retried, a run with one does not complete, and the segment stays as it failed |
| `AudioGates.RejectsIff` | src/jobs/queues/process_audio.go:298-387 | a step rejects the run exactly on unusable audio, no length, one over the maximum or a recording the plan does not allow, and then nothing stored changes |
| `AudioGates.RejectedHasCause` | src/jobs/queues/process_audio.go:298-387 | in every run that ends rejected some answer in it rejected it, and nothing else does |
| `AudioGates.FailedHasCause` | src/jobs/queues/process_audio.go:561-574 | in every run a segment ends up failed only by an answer to a request for that segment: unusable, or failing for now on the last attempt |
| `AudioGates.InterruptCosts` | src/jobs/queues/job_steps.go:14-21 | a cut or a probe or normalize that fails for now costs one attempt and nothing else, and the job when it was the last |
| `AudioGates.CommitOutcome` | src/jobs/queues/process_audio.go:661-700 | a run whose every text failed tries again while it has attempts and is unavailable on the last; any other goes on to the transcript |
| `AudioGates.AnythingMayHappen` | src/jobs/queues/process_audio.go:212-245 | any answer may come to what was asked, and a cut anywhere before the end |
| `AudioRetry.RetryCompletes` | src/transport/handlers/assets_audio.go:380-444 | whatever its open segments are then heard as, a retried run can complete, with what was done unchanged and the rest as heard |
| `AudioRetry.PrefixBreaks` | src/transport/handlers/assets_audio.go:414-426 | any recording of two windows can come to have its first segment open and all others done |
| `AudioRun.UncheckpointedIsLost` | src/jobs/queues/process_audio.go:528-541 | after a cut between storing and checkpointing, the next attempt's second step asks for the segment again |
| `AudioRun.CompletedCost` | src/jobs/queues/process_audio.go:622-656 | a completed run records its segments' cost if nothing was embedded, and else the tally of its last partial settlement, which is zero for a run never retried |
| `AudioReplay.CompleteRunIsSmooth` | gen/audio/v1/audio_grpc.pb.go:56-60 | a completed run leaves the rows and transcript of an uncut, unretried run that heard the checkpointed results, and its cost exactly when nothing was embedded or what the last partial settlement counted was free |
| `AudioReplay.SameResultsSameTranscript` | src/jobs/queues/process_audio.go:622-700 | two completed runs with the same checkpointed results agree on rows and, without ties, transcript, and then on cost exactly when nothing was embedded or their last partial tallies agree |
| `AudioReplay.OneTranscriptIff` | src/infra/repository/utterances.go:55-65 | checkpointed results determine the transcript of every run that completes with them exactly when all answers of the utterance query assemble to the same chunks |
| `AudioReplay.OneListingIff` | src/infra/repository/utterances.go:55-65 | the utterance query has one answer exactly when no two rows share start and index |
| `AudioReplay.CostIsLost` | src/jobs/queues/process_audio.go:212-245 | whatever was heard and paid for, a run nothing cut that embeds any of it completes with no cost recorded |
| `AudioReplay.CostIsKeptIff` | src/jobs/queues/process_audio.go:622-656 | without ties a completed run records its segments' cost exactly when nothing was embedded or every segment heard since the last partial settlement was free |
| `AudioRetry.TallyIsRecorded` | src/jobs/queues/process_audio.go:719-727 | a run settled as partial and retried can complete with the partial tally on record, short by what the retried segment cost |
| `AudioReplay.TiedRowsDecide` | src/infra/repository/utterances.go:55-65 | with a tie the order the query happens to return decides the transcript |
| `EmbedLoop.EmbedRun.Next` | src/jobs/queues/ingest_steps.go:195-227 | plans the head of the singles or the first open batch, and stops only when every text is settled |
| `EmbedLoop.FiftyAtATime` | src/jobs/queues/ingest_steps.go:195-227 | a batch is the fifty lowest open texts, or all of them when they are fewer |
| `EmbedLoop.EmbedRun.Settle` | src/jobs/queues/ingest_steps.go:229-268 | stores a good batch, splits a bad one, leaves out a bad single text |
| `EmbedLoop.AfterUsesUp` | src/jobs/queues/ingest_steps.go:229-268 | each call settled leaves fewer calls to make, of at most two a text and one |
| `EmbedLoop.AfterIsCloser` | src/jobs/queues/ingest_steps.go:180-187 | a text is tried once with its batch and, if that fails, once alone: each settled call lowers the open texts plus one for each fifty not yet being retried |
| `EmbedLoop.EmbedAll` | src/jobs/queues/ingest_steps.go:180-268 | however the embedder answers, ends within one call a text and one for each fifty, each text with its own vector or a failure of its own |
| `EmbedLoop.NeighboursAreSafe` | src/jobs/queues/ingest_steps.go:180-187 | a text the embedder takes alone is embedded whatever its batch held |
| `EmbedLoop.VerdictMeans` | src/jobs/queues/ingest_pipeline.go:53-70 | ready means nothing failed, partial means some of each, and only a total failure before the last attempt retries |

## Left out

- Relay: LISTEN/NOTIFY wake-ups, the poll timer, trace and request ids, lag metrics; polls are steps that may happen at any time.
- Drain: a refusal for a kind river-service does not know yet is one of the counted refusals; payloads that never decode are left to the Outbox machine, where they stay undelivered.
- GetJob and CancelJob of river-service, and what river-service does with a job once queued.
- Handover: the migration step before the check, the list of River kinds (a parameter), and the order of the drop statements.
- Dedupe keys: an insert that waits for another transaction is a step not yet enabled.
- TierVersions.Repository.Publish: interleavings of two transactions; row locks and constraints serialise them, so each is one step.
- Tier assignments by signup and backfill, assignment reasons, notices, and the handler's field checks.
- Prices of a version are part of its contents, an uninterpreted string.
- Variants.SuggestVariantMappings: case folding beyond ASCII, and how prices, catalog and free tier are loaded.
- Operator messages, the audit log line and cache invalidation of a mapping change.
- Payments.TokenRoundTrip: base64, and what a time outside 64-bit nanoseconds is printed as.
- Payments.ListPayments: the joins that add tenant and tier columns, and collations other than by character.
- EmailRollup.EmailLog.Record: the type of the last event when events of one moment arrive in different orders.
- AudioWindows.SplitWindows: overflow of 64-bit milliseconds.
- AudioWindows.ChunkSizes: characters are counted, not UTF-8 bytes.
- AudioRun.StepKeepsInv: the rows of embedded chunks (only which texts are embedded is kept), the asset's own status, start's configuration and embedder checks, metering, language hints, presigned URLs, and two loops over one run at once, which a retry asked for while the run's job is still at work would start.
- Document, PDF, image and post flows, analysis, webhooks' signatures, and every network, storage and telemetry call.
