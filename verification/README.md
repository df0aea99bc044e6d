# A distributed job queue, modelled and verified

Many instances share one `tasks` table and one `dead_letter_queue` table and coordinate through
nothing else. Each instance has a scheduler that claims tasks fairly, a bounded channel, N workers, a
watchdog and a rate-limited API, and announces what happens to connected dashboards. This project
models that system in Dafny and proves what it keeps under every interleaving.

`dafny verify dfyconfig.toml` checks everything.

| file | what it models |
|---|---|
| `Tasks.dfy`, `TaskService.dfy` | the rows and tables; the task service, as a class that updates them in place |
| `Protocol.dfy` | all instances together, as a step system: one step per database statement, hand-over, start, stop or crash |
| `Statements.dfy` | the steps of that system do to the tables what the methods of the service and the pool promise |
| `Unconditional.dfy`, `Coherence.dfy`, `Settled.dfy` | the invariants: with no hypothesis, of what holders believe, and of the settled regime |
| `Exclusion.dfy`, `Drift.dfy`, `Orphans.dfy` | exactly when two holders become possible, when a task's books go wrong, and when an orphan stays one |
| `Aftermath.dfy` | exactly which left-over holders can still do damage once the system is settled again |
| `Outcomes.dfy`, `Recovery.dfy`, `Progress.dfy`, `Termination.dfy` | what the invariants say about whole runs: outcomes, nothing lost, everything completable, everything bounded |
| `SkipLocked.dfy` | claiming under row locks refines claiming in one atomic action |
| `StaleActors.dfy` | complete runs from the empty system into the states in which properties fail |
| `Scheduler.dfy`, `Fairness.dfy`, `Starvation.dfy`, `Dispatching.dfy` | Deficit Round Robin: the nested loops over the deficits, the ledger, the bounds, the pass over the real table |
| `Contention.dfy` | passes over the real table while clients and other instances write to it |
| `Limiter.dfy`, `LimiterWindows.dfy` | the sliding-window-log limiter and its bound over every window |
| `Instance.dfy`, `Pool.dfy`, `Watchdog.dfy` | one instance: tick goroutines, channel, workers, shutdown; one run of a task; one sweep |
| `Shutdown.dfy` | an instance inside the whole system: its goroutines, channel and workers hold exactly its claims, until it may exit |
| `Hub.dfy`, `Fanout.dfy` | the event hub as objects, and under concurrent publishers and leavers |

**Two layers.** `Unconditional` and `SurvivesStaleActors` hold in every interleaving, with stale workers,
racing watchdogs, duplicate instance names and failing writes. The *settled regime* adds two hypotheses
that the code asks of its operator: an instance name is used by one live process at a time
(backend/main.go:72-86), and a watchdog only fails a row that is still the running row it read and that no
live worker holds (backend/config/config.go:38-41).

**Exact conditions.** Five properties fail in some runs, and for each there is a complete run from the empty
system in which it does (`StaleActors`) and a theorem saying, for every run, exactly when it holds.

- No held task is back in the queue, where a second holder could claim it: if and only if the run meets no
  hazard, which is a watchdog sending a held task back for a retry, or a recovery requeueing one
  (`Exclusion.MutualExclusion`). Without one no task is ever held twice; once one has been met, ordinary steps
  can lead to two holders, if need be after one more process has been started (`NoMutexNoSafety`).
- Holders are right about their tasks: if and only if no watchdog fails a held task and no recovery requeues
  one (`Coherence.CoherentThroughout`).
- The retry counter never goes back: if and only if no retry is recorded from a snapshot two attempts old
  (`Drift.NeverBackIffNoStaleRetry`).
- A task has at most one dead letter: if and only if its last failure is not recorded again once it has one
  (`Drift.OneLetterIffNoLateLetter`).
- Claim transactions look atomic: if and only if no recovery meets an open one of the name it recovers
  (`SkipLocked.SkipLockedRefinesAtomicClaiming`). Two instances can share a name by default, since an unset
  INSTANCE_ID means "backend-1" (backend/config/config.go:60); that alone does no harm.

For the retry counter and the dead letters there is a second answer, for somebody who looks at a state and not
at a run: `CounterAtRisk` and `LetterAtRisk` (`Aftermath`) say which holders and which row a state must contain
for the damage still to come, even if the system is settled from then on. The state is at risk if and only
if some settled future does the damage.

**What a claim is.** A claim follows one dequeue from the moment its transaction holds the row lock until
its worker has reported. Its snapshot is the struct the dequeue returned, and may be arbitrarily old.
Counters of claims, retries, requeues and abandoned transactions are kept beside the tables for the
accounting theorems only; no step reads them.

**Parameters.** Clocks, handler outcomes, database failures, the answers a dequeue gives to the scheduler and
the moment at which a shutdown is noticed are parameters or free choices, so every theorem is about all of
them. Where a scheduler theorem has a hypothesis about every state of the environment, the type of those
states is itself a parameter: any set of states closed under dequeuing will do, and `NoStarvation` takes that
set as an argument. `Dispatching` puts the real table there, and `Contention` the table together with what
others will write to it during the pass. Theorems over several passes are about any stretch of a scheduler's life, with whatever deficits
it starts (`Fairness.AnyStretch`).

**Where code and documentation differ.** docs/02-DATABASE.md:99 lets the claim set `started_at`; the code
sets it when a worker begins (backend/services/task_service.go:235-243), and the model follows the code. A
consequence: the watchdog is described as rescuing the tasks of an instance that died, but a task that was
claimed and never begun has no `started_at`. However long the run goes on, it stays running until its client
cancels it or an instance of that name restarts (`StrandedUntilRescued`), and no watchdog ever has it in its
list (`NeverFound`).
Cancelling a running task is described as terminal; its worker still overwrites it, and cancelling is final
exactly when nobody holds the task (`CancelIsFinalIffUnheld`).

## Model

| member | source | states |
|---|---|---|
| TaskServices.TaskService.CreateTask | backend/services/task_service.go:48-65 | a new task is pending, unowned, with the default of 3 retries unless given, under an unused id; no other row changes |
| TaskServices.TaskService.BatchCreateTasks | backend/services/task_service.go:69-89 | all inputs become pending rows in order, or, for an empty batch, none and an error |
| TaskServices.TaskService.DequeueTaskForClient | backend/services/task_service.go:216-256 | ErrNoTask exactly when the client has no unlocked pending row; otherwise one such that every other has a lower priority, or the same and is no older, is marked running for the caller, start time untouched, and is handed out as running, with the submitted columns, both counters and no others |
| TaskServices.TaskService.ClientsWithPendingTasks | backend/services/task_service.go:261-271 | exactly the clients that have a pending task |
| TaskServices.TaskService.RequeueOrphanedTasks | backend/services/task_service.go:282-291 | every running row of this instance, and no other, is pending again with owner and start time cleared and its retry count unchanged |
| TaskServices.TaskService.FindStaleRunningTasks | backend/services/task_service.go:303-313 | exactly the running rows that have a start time before the cutoff |
| TaskServices.TaskService.MarkStarted | backend/services/task_service.go:348-350 | sets the start time of this id, whatever its state |
| TaskServices.TaskService.CompleteTask | backend/services/task_service.go:365-373 | sets completed and the end time of this id, whatever its state |
| TaskServices.TaskService.FailTask | backend/services/task_service.go:382-397 | decided by the snapshot: pending again with the snapshot's counter plus one and timing cleared, or failed with a dead letter |
| TaskServices.TaskService.DeadLetterTask | backend/services/task_service.go:404-433 | the row fails and one entry with every field of the snapshot is appended, together |
| TaskServices.TaskService.GetTask | backend/services/task_service.go:439-445 | a client finds its own tasks and no others |
| TaskServices.TaskService.CancelTask | backend/services/task_service.go:455-487 | goes through exactly for the owner's pending or running task; otherwise nothing changes and the error tells a missing task from a finished one |
| Tasks.BestExists | backend/services/task_service.go:222-233 | the SELECT comes back empty exactly when no row can be claimed |
| Tasks.BestIs | backend/services/task_service.go:223-233 | a row the SELECT may return is a free pending row of the client with the highest priority and, among those, the earliest creation time |
| Tasks.DeadCountIs | backend/models/dead_letter.go:8-30 | the dead letters of a task are counted by the entries of the table that carry its id |
| Statements.StepsAreStatements | backend/services/task_service.go:216-487 | every step of the protocol does to both tables what the operation it stands for promises, and the other steps nothing |
| Statements.DequeueRunsWhen | backend/services/task_service.go:222-236 | a serving process can lock exactly the rows that the SELECT may return around the locks of others, and is told there is none exactly when there is none |
| Statements.CancelRunsWhen | backend/services/task_service.go:455-467 | a client can submit at any time, and cancel exactly its own pending and running tasks that no open claim has locked |
| Statements.ReportRunsWhen | backend/services/task_service.go:348-397 | a start or a report waits for a lock on its row and for nothing else: neither its status nor its owner is looked at |
| Statements.WatchRunsWhen | backend/watchdog/watchdog.go:98-103 | the same holds for a watchdog that fails what it has found |
| Statements.FindIsStatement | backend/watchdog/watchdog.go:80-89 | a watchdog finds exactly the rows that FindStaleRunningTasks returns, and the lists of the others stay |
| Statements.ListAfter | backend/watchdog/watchdog.go:80-108 | and keeps it until it has handled it, looks again, or stops with its process |
| Statements.ProcessRunsWhen | backend/main.go:72-104 | an instance starts under any name and can die at any time; it stops serving exactly when its scheduler has nothing under way, and exits exactly when after that its workers have reported on everything |
| Statements.DequeueIsTwoSteps | backend/services/task_service.go:216-256 | the claim transaction is a lock followed by a commit, with the row, the table and the snapshot of DequeueTaskForClient |
| Statements.ProcessIsThreeSteps | backend/worker/pool.go:187-223 | a run of a task is a start, a wait and a report, and leaves the tables that Pool.Process promises |
| Unconditional.RowStep | backend/services/task_service.go:216-433 | in every interleaving a step keeps the submitted columns of a row, its counter in range, its end time in step with its status, and the bound on its claims |
| Unconditional.LockedKeeps | backend/services/task_service.go:201-211 | no step touches the row of another open claim transaction |
| Unconditional.LetterCounted | backend/services/task_service.go:382-433 | a task's dead letters grow exactly when it is failed with a snapshot that has no retry left |
| Unconditional.BaseStep | backend/services/task_service.go:216-487 | the unconditional invariant is kept by every step |
| Unconditional.BaseRun | backend/services/task_service.go:216-487 | and so holds in every state of every run |
| Outcomes.SurvivesStaleActors | backend/services/task_service.go:365-433 | with no hypothesis: counter within 0 and max_retries, end time exactly when ended, every failed row has a dead letter with the original submission and retry_count = max_retries, claims + [pending] <= 1 + retries + requeues |
| Coherence.HeldOnceKept | backend/services/task_service.go:201-211 | no step at all makes a coherent state hold a task twice at once |
| Coherence.CoherentKept | backend/services/task_service.go:216-433 | a safe step keeps every holder right about its task |
| Coherence.UnsafeBreaks | backend/watchdog/watchdog.go:98-103 | an unsafe step always leaves some holder wrong about its task |
| Coherence.CoherentIffSafe | backend/watchdog/watchdog.go:80-108 | from a coherent state, coherence is kept if and only if the step is safe |
| Coherence.CoherentThroughout | backend/services/task_service.go:375-394 | in a whole run every holder is right about its task throughout, and alone with it, if and only if all steps are safe |
| Exclusion.MutexIffNoHazard | backend/services/task_service.go:282-291 | from any state in which no task is held twice and none that is held is queued, a step keeps that if and only if it does not put a held task back in the queue |
| Exclusion.MutualExclusion | backend/services/task_service.go:201-211 | a whole run, whatever it interleaves, keeps that throughout if and only if it meets no such hazard; then no task is ever held twice |
| Exclusion.NoMutexNoSafety | backend/services/task_service.go:386-394 | where it is not kept, settled steps lead to a state in which a task is held twice, even if nobody is serving the queue any more |
| Drift.CounterGoesBackIff | backend/services/task_service.go:382-394 | a step takes a retry counter back exactly when it records a retry from a snapshot at least two attempts old |
| Drift.NeverBackIffNoStaleRetry | backend/services/task_service.go:382-394 | in a whole run a counter never goes back if and only if that never happens |
| Drift.OneLetterIffNoLateLetter | backend/services/task_service.go:399-433 | in a whole run a task has at most one dead letter throughout if and only if its last failure is never recorded of a task that has one |
| Drift.SecondLetterOfSettled | backend/watchdog/watchdog.go:98-103 | after a settled past a second dead letter is filed exactly by a watchdog that fails a row that has failed |
| Aftermath.CounterGoesBackIffAtRisk | backend/services/task_service.go:382-394 | from any state of any run a settled future can take a counter back if and only if a holder that may still retry has fallen two attempts behind, or can: another such holder is left, or the task is or can come back in the queue |
| Aftermath.LetterFollowsIffAtRisk | backend/services/task_service.go:399-433 | from any state of any run a settled future can file a letter for a task that has one if and only if the task has one and is not at rest, or has none and two can come to hold it |
| Outcomes.HeldByOne | backend/services/task_service.go:216-256 | settled: no task is held twice among open transactions, scheduler hands, channels and workers of all instances, and a holder's snapshot agrees with the row on attempt and owner |
| Settled.SettledIsSafe | backend/config/config.go:38-41 | the operator's two hypotheses rule out both unsafe steps |
| Settled.LedgerStep | backend/services/task_service.go:273-291 | settled: retry_count, claims, requeues and dead letters of a task add up after every step |
| Settled.FinishedKeeps | backend/services/task_service.go:365-414 | settled: no statement reaches a completed or failed row |
| Settled.SettledInvStep | backend/services/task_service.go:216-487 | the settled invariant is kept by every settled step |
| Settled.SettledInvRun | backend/main.go:72-104 | and so holds in every state of every settled run |
| Outcomes.DeadLettersMatch | backend/services/task_service.go:399-433 | settled: failed rows and dead letters correspond one to one and agree on time, error and owner |
| Outcomes.AttemptsAddUp | docs/02-DATABASE.md:109-110 | settled: retry_count is the number of retries recorded, failed means exactly max_retries + 1 failures, claims never exceed max_retries + 1 + requeues, so a requeue costs no retry |
| Outcomes.Finality | backend/services/task_service.go:447-467 | settled: a completed, failed, or unheld cancelled row never changes and is never claimed again in any continuation |
| Outcomes.PendingCancelIsFinal | backend/services/task_service.go:450-464 | cancelling a pending task is final on the spot, whoever is trying to claim it |
| Outcomes.HolderCanComplete | backend/services/task_service.go:365-373 | whoever holds a task, even a cancelled one, can still complete it |
| Outcomes.CancelIsFinalIffUnheld | backend/services/task_service.go:447-464 | a cancelled task stays cancelled in every continuation if and only if nobody holds it |
| Recovery.NoTaskIsLost | backend/services/task_service.go:273-302 | with working writes a running row has exactly one live holder, of the process it names, or that process is gone |
| Recovery.DrainedSendsNothing | backend/scheduler/scheduler.go:77-83 | in every interleaving a process whose scheduler has stopped has no claim transaction open and no task on its way to its channel |
| Recovery.ShutdownLeavesNothingRunning | backend/main.go:85-104 | a process that has drained its workers leaves no row running in its name |
| Recovery.RestartRequeues | backend/main.go:72-78 | an orphan is pending again after the restart of its instance, with its retry count unchanged |
| Orphans.StrandedUntilRescued | backend/services/task_service.go:303-313 | a running, unheld, never begun row stays as it is for any length of a settled run if and only if its client does not cancel it and its instance does not restart |
| Orphans.NeverFound | backend/watchdog/watchdog.go:80-89 | meanwhile it is in no watchdog's list, and no watchdog fails it |
| Orphans.RescuedIffBegun | backend/services/task_service.go:298-313 | without client and instance an orphan can leave the running state if and only if a worker had begun with it, even where no process is left |
| Progress.HolderCompletes | backend/worker/pool.go:187-223 | whoever holds a task can complete it, and leaves every other row and claim alone |
| Progress.EveryTaskCanComplete | backend/services/task_service.go:201-291 | in every state of every settled run, whatever writes and recoveries have failed, every pending or running task can be completed by work alone: its holder finishes, its instance finishes what else it holds and restarts, the better tasks are served first |
| Recovery.WatchdogRecovers | backend/watchdog/watchdog.go:90-103 | failing an untouched orphan is a settled step and ends its running state |
| Recovery.PendingCanBeServed | backend/services/task_service.go:258-271 | a pending task's client is listed, and a task of that client that is no worse can be claimed at once |
| Termination.MoveDescends | backend/services/task_service.go:375-397 | every visible change to a task brings its measure down, but for requeues and abandoned claims, which cost a fixed amount |
| Termination.Moves | backend/services/task_service.go:216-487 | every settled step is one of those moves for every task |
| Termination.BoundedWork | backend/services/task_service.go:375-397 | no more than 13 * max_retries + 12 + 11 * requeues + 2 * aborts steps of a settled run touch a task |
| Termination.TallyBounded | backend/services/task_service.go:282-291 | a task is requeued at most once per process start and loses a claim at most once per rollback or crash |
| Termination.BoundedByFaults | backend/services/task_service.go:375-397 | so the steps that touch a task are bounded by its retry limit and the faults of the run |
| Termination.BoundedChanges | backend/services/task_service.go:375-397 | and the changes of its row by its retry limit and the process starts alone |
| Termination.FailsForGood | backend/watchdog/watchdog.go:76-79 | a task that hangs or fails every time is pending again after each of its first max_retries failures and failed for good after the next |
| SkipLocked.RefinesIffNoOpenClaim | backend/services/task_service.go:204-211 | a step on the table with locks is the matching step of the machine that claims atomically if and only if it is no recovery that meets an open claim transaction of the name it recovers |
| SkipLocked.SkipLockedRefinesAtomicClaiming | backend/services/task_service.go:201-256 | an interleaving of claim transactions with everything else is a run of that machine, linearised at the lock, an empty SELECT meaning an empty queue, if and only if no recovery in it meets an open claim transaction of the name it recovers |
| SkipLocked.OpenClaimsDiffer | backend/services/task_service.go:204-211 | in every run at all, open claim transactions are of different rows |
| StaleActors.TwoWorkersRunOneTask | backend/services/task_service.go:298-302 | a run in which a watchdog with too short a timeout has two workers run one task |
| StaleActors.TwoDeadLettersForOneTask | backend/services/task_service.go:404-433 | a run that files two dead letters for one task |
| StaleActors.RetryCountGoesBack | backend/services/task_service.go:386-394 | a run in which a stale worker sets the retry counter from 2 back to 1 |
| StaleActors.RecoveryMeetsOpenClaim | backend/config/config.go:60 | a run that is none of the atomic machine: an instance starts, and recovers, under the name of one with an open claim transaction |
| StaleActors.OrphanNobodyFinds | backend/services/task_service.go:239-248 | a settled run into the state of a stranded orphan: a crash between the claim and its beginning |
| StaleActors.CancelledWhileHeld | backend/services/task_service.go:455-467 | a settled run in which a running task is cancelled, stays held, and can still be completed |
| Schedulers.Scheduler.ScheduleOnce | backend/scheduler/scheduler.go:111-186 | bows out without effect while a pass is running; otherwise runs one pass and releases the guard on every path |
| Schedulers.Scheduler.RunPass | backend/scheduler/scheduler.go:126-186 | the pass with its listing, idle reset and forgotten deficits; only listed clients are dispatched, and in ascending byte order |
| Schedulers.Scheduler.RunRound | backend/scheduler/scheduler.go:154-186 | the outer loop: one turn per client in order, until one abandons the pass |
| Schedulers.Scheduler.TakeTurn | backend/scheduler/scheduler.go:155-184 | the inner loop: credit one quantum, then dispatch until the credit is used, the queue is empty, the dequeue fails or the instance stops |
| Schedulers.SortedOk | backend/scheduler/scheduler.go:139-140 | the round order is a sorted permutation of the active clients |
| Schedulers.SortedSame | backend/scheduler/scheduler.go:139-140 | and depends only on which clients are active |
| Schedulers.LeqIs | backend/scheduler/scheduler.go:139-140 | the order is that of sort.Strings: one name is a prefix of the other, or smaller in the first byte in which they differ |
| Fairness.TurnLedger | backend/scheduler/scheduler.go:158-184 | a turn spends exactly what it dispatches; only an empty queue forfeits the rest |
| Fairness.TurnEnds | backend/scheduler/scheduler.go:159-182 | why a turn ends early: empty queue, failed dequeue, or, and only then is the pass abandoned, shutdown |
| Fairness.PassLedger | backend/scheduler/scheduler.go:142-185 | for any environment: deficits are never negative, only active clients keep one, and a served client's dispatches and deficit add up |
| Fairness.AnyStretch | backend/scheduler/scheduler.go:38-41 | every later part of a scheduler's life is a stretch of passes like any other, with the non-negative deficits the earlier part left |
| Fairness.Ledger | backend/scheduler/scheduler.go:142-185 | over any stretch: dispatched + deficit = starting deficit + quantum * turns for a client always listed and never found empty, errors included |
| Fairness.TurnsArePasses | backend/scheduler/scheduler.go:154-156 | when no pass is abandoned such a client had a turn in each |
| Starvation.OneQuantumAPass | backend/scheduler/scheduler.go:154-184 | without errors a client backlogged over a stretch gets its starting credit and exactly one quantum a pass, and keeps none |
| Starvation.FairAtEveryInstant | backend/scheduler/scheduler.go:24-31 | without errors the totals of two clients backlogged over a stretch differ by at most one quantum and their starting credit at every instant, mid-pass included |
| Starvation.NoStarvation | backend/scheduler/scheduler.go:108-110 | from any moment on a waiting task moves up at least one quantum a pass, whatever the other clients' backlogs, in any set of states in which dequeuing stays |
| Starvation.OthersAreBounded | backend/scheduler/scheduler.go:155-184 | over any stretch any client gets at most its starting credit and one quantum a pass, errors included |
| Starvation.OthersTogether | backend/scheduler/scheduler.go:155-184 | over any stretch without errors all others together get at most quantum * (active - 1) a pass and, once, the credit with which those listed first started |
| Starvation.NoCreditCarried | backend/scheduler/scheduler.go:169-172 | without errors all deficits are 0 at every pass boundary after the first listing, even if there was credit before |
| Dispatching.ClaimIsDequeue | backend/services/task_service.go:216-256 | the dequeue used on the real table answers as DequeueTaskForClient is specified to |
| Dispatching.QueueIsInOrder | backend/services/task_service.go:223-226 | a client's queue is exactly its pending rows, each once, in priority-then-age order |
| Dispatching.PassIsFair | backend/scheduler/scheduler.go:126-185 | an undisturbed pass dispatches exactly, client by client in sorted order, the first min(quantum, pending) tasks of each queue |
| Dispatching.ClaimMovesUp | backend/services/task_service.go:223-226 | a claim moves the client's other tasks up by one place and nobody else's |
| Contention.NoStarvationOnTable | backend/scheduler/scheduler.go:154-185 | from any moment on, on the real table, with others writing to it between passes and in the middle of them, the k-th task is dispatched within ceil(k / quantum) passes or taken out of the queue by others, if nothing gets ahead of it |
| Contention.InterferedIs | backend/services/task_service.go:216-291 | a dequeue amid the writes of others answers as on the table alone; then their rows replace those and no others, and they have taken exactly what was waiting before and is not waiting for its client after |
| Contention.PoliteIsNotAhead | backend/services/task_service.go:223-226 | nothing gets ahead of a task if others write neither its row nor a row that ties with it, and what they make pending for its client comes after it: a condition on those rows and on the table at the start of the pass |
| Contention.PlaceIs | backend/services/task_service.go:223-226 | the place of a waiting task counts the client's pending tasks that come before it, and those that tie with it and that the database returns first |
| Limiters.Limiter.constructor | backend/ratelimit/ratelimit.go:81-86 | a limit below 1 counts as 1 |
| Limiters.Limiter.SlidingWindowScript | backend/ratelimit/ratelimit.go:30-48 | prunes; admits one member and renews the expiry exactly when fewer than max are live; else adds nothing |
| Limiters.Limiter.AllowNScript | backend/ratelimit/ratelimit.go:53-71 | prunes; admits all n members and renews the expiry exactly when they fit; else adds none |
| Limiters.Limiter.Allow | backend/ratelimit/ratelimit.go:92-110 | the answer, the remaining allowance, the new set and its expiry; after the expiry of the key the allowance is full again |
| Limiters.Limiter.AllowN | backend/ratelimit/ratelimit.go:115-134 | the same for a batch, where fewer than one counts as one |
| Limiters.Limiter.AddBatch | backend/ratelimit/ratelimit.go:64-66 | the loop of insertions adds exactly the members 1 to n |
| Limiters.BatchIsUnits | backend/ratelimit/ratelimit.go:92-134 | AllowN of n is admitted exactly when n calls of Allow at that instant all are, is told the same remaining allowance as the last of them, and leaves the same timestamps and expiry |
| Limiters.AllowIsAllowOne | backend/ratelimit/ratelimit.go:92-134 | Allow and AllowN of one agree on everything |
| LimiterWindows.Retained | backend/ratelimit/ratelimit.go:35-44 | neither pruning nor expiry drops a token before its window less twice the skew has passed |
| LimiterWindows.AnyWindow | backend/ratelimit/ratelimit.go:1-9 | no real interval of length window - 2 * skew ever admits more than max tokens, over every run of calls |
| LimiterWindows.WindowIsTight | backend/ratelimit/ratelimit.go:92-100 | and no longer interval has that guarantee, for any limit: twice the limit can pass in one that is longer by one |
| LimiterWindows.RefinesHistory | backend/ratelimit/ratelimit.go:30-71 | with exact clocks every call is answered as if from the full history of (now - window, now] |
| Instances.InvRun | backend/scheduler/scheduler.go:85-124 | guard, stop order and conservation hold in every state of every run of an instance |
| Instances.InFlightBound | backend/worker/pool.go:68-84 | with any number of ticks at most one pass runs, the flag says so exactly, and at most 2 * workers + 1 tasks are dequeued and unfinished |
| Instances.WhoWaits | backend/worker/pool.go:149-183 | in every state nobody in an instance waits but a sender while the channel is full and a worker while it is open and empty; the ticker goes on until it is stopped, which main can do at any time |
| Instances.WorkerWaits | backend/worker/pool.go:178-183 | any idle worker can take the first task of a non-empty channel, any busy one can finish, and any idle one can retire once it is closed and empty |
| Instances.TickWaits | backend/scheduler/scheduler.go:111-184 | a goroutine enters exactly when no pass is running, goes on exactly while the scheduler is not being stopped, and sends exactly when the channel has room |
| Instances.FirstInFirstOut | backend/worker/pool.go:178-183 | workers take tasks in the order in which the scheduler dequeued them |
| Instances.GracefulShutdown | backend/worker/pool.go:158-172 | no send on the closed channel and no refused task ever; when Stop has returned, every dequeued task was processed exactly once |
| Instances.StopsPromptly | backend/scheduler/scheduler.go:159-164 | once the scheduler is told to stop at most one more task is dequeued |
| Instances.ShutdownDescends | backend/main.go:85-104 | during shutdown every step but a late tick leaves less to do |
| Instances.ShutdownCompletes | backend/main.go:147-150 | shutdown never gets stuck: from every state it can be finished within a computed number of steps |
| Instances.ShutdownIsBounded | backend/scheduler/scheduler.go:94-105 | and in every run takes at most that many steps and three for each late tick |
| Shutdowns.InvStep | backend/worker/pool.go:149-183 | whatever an instance and all others do, its claims in the protocol are exactly the tasks that its goroutines, channel and workers have, each at the stage that goes with the place |
| Shutdowns.EveryStepMatches | backend/scheduler/scheduler.go:159-184 | whenever the inside of an instance can take a step, the protocol can take the one that goes with it, or nothing of it shows there |
| Shutdowns.GracefulExit | backend/main.go:80-104 | when main has come to its end, however it was scheduled and whatever the others did, the instance holds no task, and its exit is a step of the protocol |
| Shutdowns.HoldsFew | backend/worker/pool.go:68-84 | an instance never has more than 2 * workers + 1 claims, the open transaction included |
| Shutdowns.NoRowLeftRunning | backend/main.go:147-150 | in a settled system whose writes work, no row is running in the name of an instance whose main has come to its end |
| Pools.Pool.constructor | backend/worker/pool.go:72-86 | at least one worker, all idle, an empty queue |
| Pools.Pool.WorkerStates | backend/worker/pool.go:92-108 | one status per worker in order; an idle worker shows nothing else |
| Pools.Pool.Submit | backend/worker/pool.go:149-156 | a task is appended, or refused when the pool is shutting down |
| Pools.Pool.Process | backend/worker/pool.go:187-243 | the tables, the worker's state and every dashboard's buffer after one run, for every handler outcome and write failure: task.started, then task.completed or task.failed as the handler came back, or nothing more if that was not recorded |
| Pools.Pool.Drain | backend/worker/pool.go:178-183 | the loop over the closed queue runs all that is left, in order, and announces every run |
| Pools.Pool.Stop | backend/worker/pool.go:166-172 | the context is cancelled only after the queue is drained |
| Pools.DrainSettlesEach | backend/worker/pool.go:158-162 | a drain leaves each task with the outcome of its own run |
| Pools.RunEnds | backend/worker/pool.go:203-243 | which end a recorded run comes to, and all columns of its row; the error recorded is the handler's own, and a panic is a failure like any other |
| Pools.RunFiles | backend/services/task_service.go:404-433 | a run files a letter exactly for a recorded failure with no retry left: the snapshot, with the handler's error |
| Pools.RunUnrecorded | backend/worker/pool.go:205-221 | a run whose end the database did not take has at most marked the start |
| Watchdogs.Watchdog.Sweep | backend/watchdog/watchdog.go:80-108 | each stale task handled is failed exactly once as it was read, nothing else changes, one dead letter per retired task, a copy of its row with the reason; as many are seen as a shutdown allows; an uninterrupted sweep leaves nothing stale |
| Watchdogs.Watchdog.RecoverAll | backend/watchdog/watchdog.go:90-107 | the loop: a failed update is passed over, a shutdown ends it early, and every letter filed is a copy of a handled row |
| Hubs.Hub.Subscribe | backend/sse/hub.go:42-48 | a new open connection is registered |
| Hubs.Hub.Unsubscribe | backend/sse/hub.go:51-56 | a connection is removed, then closed |
| Hubs.Hub.PublishTaskEvent | backend/sse/hub.go:65-85 | every subscriber of the client with room gets the event at its end, nobody else anything |
| Fanout.NoPanicNoBlock | backend/sse/hub.go:58-85 | under concurrency no send hits a closed channel, no channel is closed twice, and a publisher that has the lock never waits |
| Fanout.WhoGetsTheLock | backend/sse/hub.go:42-56 | publishers share the lock: another can begin exactly when nobody waits to write, and a writer gets it exactly when nobody publishes |
| Fanout.ConnectionLives | backend/sse/hub.go:42-56 | a connection belongs to the client that subscribed; it is registered, or deleted and not yet closed, or closed, and none is forgotten |
| Fanout.LockComesFree | backend/sse/hub.go:44-46 | one that has to wait for the lock waits for nobody who reads: a known number of steps, none a subscriber's, frees it |
| Fanout.Delivery | backend/sse/hub.go:61-84 | what is read is, in send order, what was sent of the subscriber's own client but for sends that found 16 waiting, and each is the event of the publish it was sent by |
| Fanout.OfferedOnce | backend/sse/hub.go:74-84 | the event of the n-th publish of a run is offered exactly once to each matching subscriber registered when it began, and to nobody else |
| Fanout.PublishesAre | backend/sse/hub.go:65-72 | publishes are numbered in the order in which they begin, none left out |

## Left out

- HTTP controllers, routing, authentication, configuration, logging, Docker, the bench tool and the frontend: no state machine.
- GORM, MySQL and Redis internals: each UPDATE and each script is one atomic step, a lock is on exactly the selected row, a transaction happens as a whole or not at all; GORM's defaulting of zero values is not modelled, max_retries is the stored value.
- Rows with equal priority and creation time: the database may return either; `Dispatching` and `Contention` fix the choice as any function of the set of best rows.
- Database write errors appear as a failed startup recovery, a failed MarkStarted, a claim dropped without a report, a failed listing or dequeue, and a refused update in a sweep; an update that the database applied but reported as failed is not distinguished from one it applied.
- Redis failure and the API's fail-open answer: the limiter is modelled when its script runs, on one key, with distinct members and a positive window; Redis's clock is taken as real time.
- ClearAllData, AddDemoTasks and seeding: demo utilities. Seeded failed rows have no dead letter, and are outside the dead-letter theorems.
- ListTasks and the analytics service: queries for display.
- The worker registry's heartbeats: a display of worker states that expires.
- What handlers do, sleeping and wall time: outcomes are free, clocks are integers that do not go back.
- Watchdogs.Watchdog.Sweep: one sweep with nobody interfering; interleaved sweeps are the Find, WatchFail and Forget steps of the protocol.
- Pools.Pool.Drain: one worker's loop; several workers draining together are in `Instance.dfy`.
- Pools.Pool.Stop: the drain by one worker of what is buffered; tasks that other workers are still running are in `Instance.dfy`.
- Pools.Pool.Submit: its blocking while the channel is full is the Send step of `Instance.dfy` not being enabled; the method is the call once it can return.
- Unsubscribing one connection twice: the stream handler does it once, and a second close would panic.
- Fairness of Go's select and of the operating system: shutdown is bounded by steps and late ticks, not by time.
