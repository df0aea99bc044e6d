/** The rows of the `tasks` and `dead_letter_queue` tables, and what each single UPDATE,
    INSERT or transaction of the task service does to them. */
module Tasks {

  datatype Option<+T> = None | Some(value: T)

  datatype Status = Pending | Running | Completed | Failed | Cancelled

  /** One row of `tasks`. The same record is also what Go code carries around in memory:
      a snapshot of the row as it was when it was read. */
  datatype Task = Task(
    id: nat, client: string, kind: string, priority: nat, payload: string,
    status: Status, retryCount: int, maxRetries: int,
    errorMessage: Option<string>, processedBy: Option<string>,
    createdAt: int, startedAt: Option<int>, completedAt: Option<int>)

  datatype DeadLetter = DeadLetter(
    taskId: nat, client: string, kind: string, priority: nat, payload: string,
    retryCount: int, maxRetries: int, finalError: string, processedBy: Option<string>,
    createdAt: int, failedAt: int)

  datatype Db = Db(tasks: map<nat, Task>, dead: seq<DeadLetter>, nextId: nat)

  /** The submission fields of a task; `maxRetries` is optional in the request. */
  datatype TaskInput = TaskInput(kind: string, priority: nat, payload: string, maxRetries: Option<nat>)

  const DEFAULT_MAX_RETRIES := 3

  // ---------------------------------------------------------------- rows

  function NewRow(id: nat, client: string, input: TaskInput, now: int): Task {
    Task(id, client, input.kind, input.priority, input.payload, Pending, 0,
         if input.maxRetries.Some? then input.maxRetries.value else DEFAULT_MAX_RETRIES,
         None, None, now, None, None)
  }

  function ClaimedRow(r: Task, instance: string): Task {
    r.(status := Running, processedBy := Some(instance))
  }

  /** The struct handed to the worker: only the selected columns are filled in. */
  function Snapshot(r: Task, instance: string): Task {
    r.(status := Running, processedBy := Some(instance), errorMessage := None, startedAt := None, completedAt := None)
  }

  function StartedRow(r: Task, now: int): Task {
    r.(startedAt := Some(now))
  }

  function CompletedRow(r: Task, now: int): Task {
    r.(status := Completed, completedAt := Some(now))
  }

  function CancelledRow(r: Task, now: int): Task {
    r.(status := Cancelled, completedAt := Some(now))
  }

  /** The retry branch writes the counter of the snapshot, not of the row. */
  function RetriedRow(r: Task, snap: Task, err: string): Task {
    r.(status := Pending, retryCount := snap.retryCount + 1, errorMessage := Some(err), startedAt := None, completedAt := None)
  }

  function FailedRow(r: Task, err: string, now: int): Task {
    r.(status := Failed, errorMessage := Some(err), completedAt := Some(now))
  }

  predicate HasRetriesLeft(snap: Task) {
    snap.retryCount < snap.maxRetries
  }

  /** The fork is decided by the snapshot, whatever the row says by now. */
  function FailTask(r: Task, snap: Task, err: string, now: int): Task {
    if HasRetriesLeft(snap) then RetriedRow(r, snap, err) else FailedRow(r, err, now)
  }

  function RequeuedRow(r: Task): Task {
    r.(status := Pending, startedAt := None, processedBy := None)
  }

  /** The updates a row can undergo. */
  datatype Write =
    | Keep
    | TakeBy(instance: string)
    | Begin(now: int)
    | Finish(now: int)
    | Abandon(now: int)
    | FailAs(snap: Task, err: string, now: int)
    | Requeue

  function Do(r: Task, w: Write): Task {
    match w
    case Keep => r
    case TakeBy(instance) => ClaimedRow(r, instance)
    case Begin(now) => StartedRow(r, now)
    case Finish(now) => CompletedRow(r, now)
    case Abandon(now) => CancelledRow(r, now)
    case FailAs(snap, err, now) => FailTask(r, snap, err, now)
    case Requeue => RequeuedRow(r)
  }

  function Letter(snap: Task, err: string, now: int): DeadLetter {
    DeadLetter(snap.id, snap.client, snap.kind, snap.priority, snap.payload, snap.retryCount,
               snap.maxRetries, err, snap.processedBy, snap.createdAt, now)
  }

  predicate IsOrphanOf(r: Task, instance: string) {
    r.status == Running && r.processedBy == Some(instance)
  }

  predicate IsStale(r: Task, cutoff: int) {
    r.status == Running && r.startedAt.Some? && r.startedAt.value < cutoff
  }

  // ---------------------------------------------------------------- tables

  // An UPDATE ... WHERE id = ? touches nothing when the id is unknown.
  function FailedTasks(tasks: map<nat, Task>, snap: Task, err: string, now: int): map<nat, Task> {
    if snap.id in tasks then tasks[snap.id := FailTask(tasks[snap.id], snap, err, now)] else tasks
  }

  function FailedLetters(dead: seq<DeadLetter>, snap: Task, err: string, now: int): seq<DeadLetter> {
    if HasRetriesLeft(snap) then dead else dead + [Letter(snap, err, now)]
  }

  function RequeuedTasks(tasks: map<nat, Task>, instance: string): map<nat, Task> {
    map id | id in tasks :: if IsOrphanOf(tasks[id], instance) then RequeuedRow(tasks[id]) else tasks[id]
  }

  function StaleTasks(tasks: map<nat, Task>, cutoff: int): set<Task> {
    set id | id in tasks && IsStale(tasks[id], cutoff) :: tasks[id]
  }

  function PendingClients(tasks: map<nat, Task>): set<string> {
    set id | id in tasks && tasks[id].status == Pending :: tasks[id].client
  }

  // ---------------------------------------------------------------- the dequeue order

  /** ORDER BY priority DESC, created_at ASC. Rows with equal keys may come in any order. */
  predicate Before(a: Task, b: Task) {
    a.priority > b.priority || (a.priority == b.priority && a.createdAt < b.createdAt)
  }

  /** A row the SELECT of a dequeue may consider: pending, of this client, not locked. */
  predicate Claimable(tasks: map<nat, Task>, locked: set<nat>, client: string, id: nat) {
    id in tasks && id !in locked && tasks[id].status == Pending && tasks[id].client == client
  }

  /** A row the SELECT ... LIMIT 1 FOR UPDATE SKIP LOCKED may return. */
  predicate Best(tasks: map<nat, Task>, locked: set<nat>, client: string, id: nat) {
    && Claimable(tasks, locked, client, id)
    && forall other {:trigger Claimable(tasks, locked, client, other)} | other in tasks ::
         Claimable(tasks, locked, client, other) ==> !Before(tasks[other], tasks[id])
  }

  /** The same in terms of the columns: a free pending row of the client, and every other one has a lower
      priority, or the same and is no older. */
  lemma BestIs(tasks: map<nat, Task>, locked: set<nat>, client: string, id: nat)
    ensures Best(tasks, locked, client, id) <==>
              && id in tasks && id !in locked && tasks[id].status == Pending && tasks[id].client == client
              && forall o | o in tasks && o !in locked && tasks[o].status == Pending && tasks[o].client == client ::
                   || tasks[o].priority < tasks[id].priority
                   || (tasks[o].priority == tasks[id].priority && tasks[o].createdAt >= tasks[id].createdAt)
  {
    forall o | o in tasks && o !in locked && tasks[o].status == Pending && tasks[o].client == client ensures Claimable(tasks, locked, client, o) {
    }
  }

  /** Among finitely many claimable rows there is a best one. */
  lemma {:induction false} BestOf(tasks: map<nat, Task>, ids: set<nat>, locked: set<nat>, client: string) returns (id: nat)
    requires ids != {}
    requires forall i | i in ids :: Claimable(tasks, locked, client, i)
    ensures id in ids && id in tasks
    ensures forall other | other in ids && other in tasks :: !Before(tasks[other], tasks[id])
    decreases ids
  {
    var x :| x in ids;
    if ids == {x} {
      id := x;
    } else {
      var y := BestOf(tasks, ids - {x}, locked, client);
      id := if Before(tasks[x], tasks[y]) then x else y;
    }
  }

  /** The SELECT comes back empty exactly when no row is claimable. */
  lemma BestExists(tasks: map<nat, Task>, locked: set<nat>, client: string)
    ensures (exists id :: Best(tasks, locked, client, id)) <==> (exists id :: Claimable(tasks, locked, client, id))
  {
    if id :| Claimable(tasks, locked, client, id) {
      var ids := set i | i in tasks && Claimable(tasks, locked, client, i);
      assert id in ids;
      var b := BestOf(tasks, ids, locked, client);
      assert Best(tasks, locked, client, b);
    }
  }

  // ---------------------------------------------------------------- dead letters of a task

  function DeadCount(dead: seq<DeadLetter>, id: nat): nat {
    if dead == [] then 0
    else DeadCount(dead[..|dead| - 1], id) + (if dead[|dead| - 1].taskId == id then 1 else 0)
  }

  lemma DeadCountPush(dead: seq<DeadLetter>, e: DeadLetter, id: nat)
    ensures DeadCount(dead + [e], id) == DeadCount(dead, id) + (if e.taskId == id then 1 else 0)
  {
    assert (dead + [e])[..|dead|] == dead;
  }

  function LettersOf(dead: seq<DeadLetter>, id: nat): set<nat> {
    set i | 0 <= i < |dead| && dead[i].taskId == id
  }

  lemma LettersOfMore(dead: seq<DeadLetter>, id: nat)
    requires dead != []
    ensures var n := |dead| - 1; LettersOf(dead, id) == LettersOf(dead[..n], id) + (if dead[n].taskId == id then {n} else {})
  {
  }

  /** It is the number of letters in the table that carry this id. */
  lemma {:induction false} DeadCountIs(dead: seq<DeadLetter>, id: nat)
    ensures DeadCount(dead, id) == |LettersOf(dead, id)|
  {
    if dead != [] {
      DeadCountIs(dead[..|dead| - 1], id);
      LettersOfMore(dead, id);
    }
  }

  lemma SubsetSize<T>(a: set<T>, b: set<T>)
    requires a <= b
    ensures |a| <= |b|
  {
    assert b == a + (b - a);
  }
}
