/** The queue as a step system. Any number of processes share the tables; each step is one
    atomic database statement, one in-memory hand-over, or the start or end of a process.

    A claim is one dequeue, followed from the moment its transaction holds the row lock until
    its worker has reported. Claims are numbered, so that two claims of the same task are two
    different things. Nothing here stops a process from reporting on a task it no longer owns:
    the statements filter on the id alone, as in the source. */
module Protocol {
  import opened Tasks

  datatype Stage = Locked | InHand | Queued | Picked | Started

  /** `snap` is what the process knows about the task: the row as it was when it was read. */
  datatype Claim = Claim(pid: nat, snap: Task, stage: Stage)

  /** One running incarnation of an instance. It stops serving when its scheduler stops. */
  datatype Proc = Proc(name: string, serving: bool)

  /** What has happened to one task so far. */
  datatype Tally = Tally(claims: nat, retries: nat, requeues: nat, aborts: nat)

  datatype Sys = Sys(
    db: Db,
    tally: map<nat, Tally>,
    claims: map<nat, Claim>,
    nextClaim: nat,
    procs: map<nat, Proc>,
    found: set<(nat, Task)>,   // what each process's watchdog has read and not yet acted on
    clock: int)

  datatype Label =
    | Tick(now: int)
    | Create(client: string, input: TaskInput)
    | Spawn(pid: nat, name: string, recovered: bool)  // recovery may fail, and the pool starts anyway
    | LockRow(pid: nat, id: nat)                      // SELECT ... FOR UPDATE SKIP LOCKED
    | FindNone(pid: nat, client: string)              // the same SELECT, with no row
    | Commit(k: nat)
    | Rollback(k: nat)
    | Submit(k: nat)
    | Pickup(k: nat)
    | Start(k: nat, marked: bool)                     // a failed MarkStarted is logged and ignored
    | Complete(k: nat)
    | Fail(k: nat, err: string)
    | Drop(k: nat)                                    // a bookkeeping write failed, or Submit was refused
    | Cancel(client: string, id: nat)
    | Find(pid: nat, timeout: int)
    | WatchFail(pid: nat, snap: Task, err: string)
    | Forget(pid: nat)                                // the sweep ends before it has handled everything
    | Drain(pid: nat)                                 // watchdog and scheduler have stopped
    | Exit(pid: nat)
    | Crash(pid: nat)

  function LockedIds(s: Sys): set<nat> {
    LockedIn(s.claims)
  }

  function LockedIn(claims: map<nat, Claim>): set<nat> {
    set k | k in claims && claims[k].stage.Locked? :: claims[k].snap.id
  }

  /** Some live process is holding this task, at whatever stage. */
  ghost predicate Held(s: Sys, id: nat) {
    HeldIn(s.claims, id)
  }

  ghost predicate HeldIn(claims: map<nat, Claim>, id: nat) {
    exists k :: k in claims && claims[k].snap.id == id
  }

  predicate AtStage(s: Sys, k: nat, stage: Stage) {
    k in s.claims && s.claims[k].stage == stage && s.claims[k].pid in s.procs
  }

  /** An update of this row does not have to wait for another transaction. */
  predicate Writable(s: Sys, id: nat) {
    id in s.db.tasks && id !in LockedIds(s)
  }

  function ClaimsOf(claims: map<nat, Claim>, pid: nat): set<nat> {
    set k | k in claims && claims[k].pid == pid
  }

  predicate NoClaimsOf(s: Sys, pid: nat) {
    forall k | k in s.claims :: s.claims[k].pid != pid
  }

  predicate Enabled(s: Sys, l: Label) {
    match l
    case Tick(now) => s.clock <= now
    case Create(_, _) => true
    case Spawn(pid, _, _) => pid !in s.procs
    case LockRow(pid, id) =>
      pid in s.procs && s.procs[pid].serving && id in s.db.tasks && Best(s.db.tasks, LockedIds(s), s.db.tasks[id].client, id)
    case FindNone(pid, client) =>
      pid in s.procs && s.procs[pid].serving &&
      forall id {:trigger Claimable(s.db.tasks, LockedIds(s), client, id)} | id in s.db.tasks :: !Claimable(s.db.tasks, LockedIds(s), client, id)
    case Commit(k) => AtStage(s, k, Locked)
    case Rollback(k) => AtStage(s, k, Locked)
    case Submit(k) => AtStage(s, k, InHand)
    case Pickup(k) => AtStage(s, k, Queued)
    case Start(k, marked) => AtStage(s, k, Picked) && (marked ==> Writable(s, s.claims[k].snap.id))
    case Complete(k) => AtStage(s, k, Started) && Writable(s, s.claims[k].snap.id)
    case Fail(k, _) => AtStage(s, k, Started) && Writable(s, s.claims[k].snap.id)
    case Drop(k) => k in s.claims && !s.claims[k].stage.Locked?
    case Cancel(client, id) => Writable(s, id) && s.db.tasks[id].client == client && s.db.tasks[id].status in {Pending, Running}
    case Find(pid, _) => pid in s.procs && s.procs[pid].serving
    case WatchFail(pid, snap, _) => pid in s.procs && (pid, snap) in s.found && Writable(s, snap.id)
    case Forget(pid) => pid in s.procs
    case Drain(pid) =>
      pid in s.procs && forall k | k in s.claims && s.claims[k].pid == pid :: !s.claims[k].stage.Locked? && !s.claims[k].stage.InHand?
    case Exit(pid) => pid in s.procs && !s.procs[pid].serving && NoClaimsOf(s, pid)
    case Crash(pid) => pid in s.procs
  }

  /** What the step does to an existing row. */
  function WriteTo(s: Sys, l: Label, r: Task): Write
    requires Enabled(s, l)
  {
    match l
    case Spawn(_, name, recovered) => if recovered && IsOrphanOf(r, name) then Requeue else Keep
    case Commit(k) => if s.claims[k].snap.id == r.id then TakeBy(s.procs[s.claims[k].pid].name) else Keep
    case Start(k, marked) => if marked && s.claims[k].snap.id == r.id then Begin(s.clock) else Keep
    case Complete(k) => if s.claims[k].snap.id == r.id then Finish(s.clock) else Keep
    case Fail(k, err) => if s.claims[k].snap.id == r.id then FailAs(s.claims[k].snap, err, s.clock) else Keep
    case Cancel(_, id) => if id == r.id then Abandon(s.clock) else Keep
    case WatchFail(_, snap, err) => if snap.id == r.id then FailAs(snap, err, s.clock) else Keep
    case _ => Keep
  }

  function RowAfter(r: Task, s: Sys, l: Label): Task
    requires Enabled(s, l)
  {
    Do(r, WriteTo(s, l, r))
  }

  /** What the step writes into the `tasks` table. */
  function RowWrites(tasks: map<nat, Task>, s: Sys, l: Label): map<nat, Task>
    requires Enabled(s, l)
  {
    var rows := map id | id in tasks :: RowAfter(tasks[id], s, l);
    if l.Create? then rows[s.db.nextId := NewRow(s.db.nextId, l.client, l.input, s.clock)] else rows
  }

  function DeadWrites(s: Sys, l: Label): seq<DeadLetter>
    requires Enabled(s, l)
  {
    match l
    case Fail(k, err) => FailedLetters(s.db.dead, s.claims[k].snap, err, s.clock)
    case WatchFail(_, snap, err) => FailedLetters(s.db.dead, snap, err, s.clock)
    case _ => s.db.dead
  }

  function ClaimsAfter(s: Sys, l: Label): map<nat, Claim>
    requires Enabled(s, l)
  {
    match l
    case LockRow(pid, id) => s.claims[s.nextClaim := Claim(pid, s.db.tasks[id], Locked)]
    case Commit(k) =>
      var c := s.claims[k];
      s.claims[k := Claim(c.pid, Snapshot(c.snap, s.procs[c.pid].name), InHand)]
    case Submit(k) => s.claims[k := s.claims[k].(stage := Queued)]
    case Pickup(k) => s.claims[k := s.claims[k].(stage := Picked)]
    case Start(k, _) => s.claims[k := s.claims[k].(stage := Started)]
    case Rollback(k) => s.claims - {k}
    case Complete(k) => s.claims - {k}
    case Fail(k, _) => s.claims - {k}
    case Drop(k) => s.claims - {k}
    case Crash(pid) => map k | k in s.claims && s.claims[k].pid != pid :: s.claims[k]
    case _ => s.claims
  }

  function FoundAfter(s: Sys, l: Label): set<(nat, Task)>
    requires Enabled(s, l)
  {
    match l
    case Find(pid, timeout) =>
      (set f | f in s.found && f.0 != pid) + set t | t in StaleTasks(s.db.tasks, s.clock - timeout) :: (pid, t)
    case WatchFail(pid, snap, _) => s.found - {(pid, snap)}
    case Forget(pid) => set f | f in s.found && f.0 != pid
    case Drain(pid) => set f | f in s.found && f.0 != pid
    case Exit(pid) => set f | f in s.found && f.0 != pid
    case Crash(pid) => set f | f in s.found && f.0 != pid
    case _ => s.found
  }

  function ProcsAfter(s: Sys, l: Label): map<nat, Proc>
    requires Enabled(s, l)
  {
    match l
    case Spawn(pid, name, _) => s.procs[pid := Proc(name, true)]
    case Drain(pid) => s.procs[pid := s.procs[pid].(serving := false)]
    case Exit(pid) => s.procs - {pid}
    case Crash(pid) => s.procs - {pid}
    case _ => s.procs
  }

  /** The lock of this task's open claim is given back by the step. */
  ghost predicate Aborts(s: Sys, l: Label, id: nat) {
    || (l.Rollback? && l.k in s.claims && s.claims[l.k].snap.id == id)
    || (l.Crash? && exists k :: k in s.claims && s.claims[k].stage.Locked? && s.claims[k].pid == l.pid && s.claims[k].snap.id == id)
  }

  function Counted(y: Tally, w: Write, aborted: bool): Tally {
    Tally(y.claims + (if w.TakeBy? then 1 else 0),
          y.retries + (if w.FailAs? && HasRetriesLeft(w.snap) then 1 else 0),
          y.requeues + (if w.Requeue? then 1 else 0),
          y.aborts + (if aborted then 1 else 0))
  }

  ghost function TallyAfter(s: Sys, l: Label): map<nat, Tally>
    requires Enabled(s, l)
  {
    var counted := map id | id in s.tally && id in s.db.tasks ::
      Counted(s.tally[id], WriteTo(s, l, s.db.tasks[id]), Aborts(s, l, id));
    if l.Create? then counted[s.db.nextId := Tally(0, 0, 0, 0)] else counted
  }

  ghost function Apply(s: Sys, l: Label): Sys
    requires Enabled(s, l)
  {
    Sys(Db(RowWrites(s.db.tasks, s, l), DeadWrites(s, l), if l.Create? then s.db.nextId + 1 else s.db.nextId),
        TallyAfter(s, l),
        ClaimsAfter(s, l),
        if l.LockRow? then s.nextClaim + 1 else s.nextClaim,
        ProcsAfter(s, l),
        FoundAfter(s, l),
        if l.Tick? then l.now else s.clock)
  }

  const INITIAL := Sys(Db(map[], [], 0), map[], map[], 0, map[], {}, 0)

  /** A finite run: states[i] goes to states[i + 1] by labels[i]. */
  ghost predicate Run(states: seq<Sys>, labels: seq<Label>) {
    && |states| == |labels| + 1
    && states[0] == INITIAL
    && forall i {:trigger labels[i]} | 0 <= i < |labels| :: Steps(states[i], labels[i], states[i + 1])
  }

  ghost predicate Steps(s: Sys, l: Label, s': Sys) {
    Enabled(s, l) && s' == Apply(s, l)
  }
}
