/** The steps of the protocol are the operations of the service: what a step does to the tables is
    what the method of the same name promises to do to them, and the longer operations of a process
    are sequences of steps. */
module Statements {
  import opened Tasks
  import opened Protocol
  import opened Unconditional
  import opened Coherence
  import opened Pools

  /** One step, one statement. Steps not listed leave both tables alone. */
  ghost predicate IsStatement(s: Sys, l: Label, tasks': map<nat, Task>, dead': seq<DeadLetter>)
    requires Enabled(s, l)
  {
    var tasks, dead := s.db.tasks, s.db.dead;
    match l
    case Create(client, input) => tasks' == tasks[s.db.nextId := NewRow(s.db.nextId, client, input, s.clock)] && dead' == dead
    case Spawn(_, name, recovered) => tasks' == (if recovered then RequeuedTasks(tasks, name) else tasks) && dead' == dead
    case Commit(k) =>
      var id := s.claims[k].snap.id;
      id in tasks && tasks' == tasks[id := ClaimedRow(tasks[id], s.procs[s.claims[k].pid].name)] && dead' == dead
    case Start(k, marked) =>
      var x := Execution(s.clock, s.clock, marked, Succeeded, true);
      Db(tasks', dead', 0) == MarkedDb(Db(tasks, dead, 0), s.claims[k].snap, x)
    case Complete(k) =>
      var id := s.claims[k].snap.id; tasks' == tasks[id := CompletedRow(tasks[id], s.clock)] && dead' == dead
    case Fail(k, err) =>
      var snap := s.claims[k].snap; tasks' == FailedTasks(tasks, snap, err, s.clock) && dead' == FailedLetters(dead, snap, err, s.clock)
    case WatchFail(_, snap, err) => tasks' == FailedTasks(tasks, snap, err, s.clock) && dead' == FailedLetters(dead, snap, err, s.clock)
    case Cancel(_, id) => tasks' == tasks[id := CancelledRow(tasks[id], s.clock)] && dead' == dead
    case _ => tasks' == tasks && dead' == dead
  }

  /** Only the row of this id is written, and this is what is written to it. */
  lemma OneRow(s: Sys, l: Label, id: nat, w: Write)
    requires RowsOk(s.db.tasks, s.db.nextId) && Enabled(s, l) && !l.Create? && id in s.db.tasks
    requires forall r: Task :: WriteTo(s, l, r) == if r.id == id then w else Keep
    ensures RowWrites(s.db.tasks, s, l) == s.db.tasks[id := Do(s.db.tasks[id], w)]
  {
    forall i | i in s.db.tasks ensures RowAfter(s.db.tasks[i], s, l) == if i == id then Do(s.db.tasks[id], w) else s.db.tasks[i] {
      assert RowOk(i, s.db.tasks[i]);
    }
    Updated(s.db.tasks, s, l, id, Do(s.db.tasks[id], w));
  }

  lemma Updated(tasks: map<nat, Task>, s: Sys, l: Label, id: nat, r: Task)
    requires Enabled(s, l) && !l.Create? && id in tasks
    requires forall i | i in tasks :: RowAfter(tasks[i], s, l) == if i == id then r else tasks[i]
    ensures RowWrites(tasks, s, l) == tasks[id := r]
  {
  }

  lemma NoRow(s: Sys, l: Label)
    requires Enabled(s, l) && !l.Create?
    requires forall r: Task :: WriteTo(s, l, r) == Keep
    ensures RowWrites(s.db.tasks, s, l) == s.db.tasks
  {
  }

  lemma CreateWrites(s: Sys, l: Label)
    requires RowsOk(s.db.tasks, s.db.nextId) && Enabled(s, l) && l.Create?
    ensures RowWrites(s.db.tasks, s, l) == s.db.tasks[s.db.nextId := NewRow(s.db.nextId, l.client, l.input, s.clock)]
  {
  }

  lemma SpawnWrites(s: Sys, l: Label)
    requires Enabled(s, l) && l.Spawn? && l.recovered
    ensures RowWrites(s.db.tasks, s, l) == RequeuedTasks(s.db.tasks, l.name)
  {
  }

  lemma FailWrites(s: Sys, l: Label)
    requires Base(s) && Enabled(s, l) && (l.Fail? || l.WatchFail?)
    ensures RowWrites(s.db.tasks, s, l) == FailedTasks(s.db.tasks, Failing(s, l), l.err, s.clock)
    ensures DeadWrites(s, l) == FailedLetters(s.db.dead, Failing(s, l), l.err, s.clock)
  {
    FailingOk(s, l);
    OneRow(s, l, Failing(s, l).id, FailAs(Failing(s, l), l.err, s.clock));
  }

  lemma HolderWrites(s: Sys, l: Label)
    requires Base(s) && Enabled(s, l) && (l.Commit? || l.Start? || l.Complete?)
    ensures IsStatement(s, l, RowWrites(s.db.tasks, s, l), s.db.dead)
  {
    var id := s.claims[l.k].snap.id;
    assert SnapOk(s.db.tasks, s.claims[l.k].snap);
    if l.Commit? {
      OneRow(s, l, id, TakeBy(s.procs[s.claims[l.k].pid].name));
    } else if l.Complete? {
      OneRow(s, l, id, Finish(s.clock));
    } else if l.marked {
      OneRow(s, l, id, Begin(s.clock));
    } else {
      NoRow(s, l);
    }
  }

  lemma StepsAreStatements(s: Sys, l: Label)
    requires Base(s) && Enabled(s, l)
    ensures IsStatement(s, l, RowWrites(s.db.tasks, s, l), DeadWrites(s, l))
  {
    if l.Create? {
      CreateWrites(s, l);
    } else if l.Spawn? && l.recovered {
      SpawnWrites(s, l);
    } else if l.Fail? || l.WatchFail? {
      FailWrites(s, l);
    } else if l.Commit? || l.Start? || l.Complete? {
      HolderWrites(s, l);
    } else if l.Cancel? {
      OneRow(s, l, l.id, Abandon(s.clock));
    } else {
      NoRow(s, l);
    }
  }

  // ---------------------------------------------------------------- when a statement can run

  /** Nobody else's open claim transaction has this row. */
  ghost predicate Unlocked(s: Sys, id: nat) {
    forall k | k in s.claims && s.claims[k].stage.Locked? :: s.claims[k].snap.id != id
  }

  lemma UnlockedIs(s: Sys, id: nat)
    ensures Unlocked(s, id) <==> id !in LockedIds(s)
  {
  }

  ghost predicate Waits(s: Sys, client: string, id: nat) {
    id in s.db.tasks && Unlocked(s, id) && s.db.tasks[id].status == Pending && s.db.tasks[id].client == client
  }

  /** A process that serves can lock exactly the rows that DequeueTaskForClient may return, and is told that
      there is none exactly when the client has no pending row that is not locked. */
  lemma DequeueRunsWhen(s: Sys, pid: nat, client: string, id: nat)
    ensures Enabled(s, LockRow(pid, id)) && s.db.tasks[id].client == client <==>
              && pid in s.procs && s.procs[pid].serving && Waits(s, client, id)
              && forall o | Waits(s, client, o) ::
                   || s.db.tasks[o].priority < s.db.tasks[id].priority
                   || (s.db.tasks[o].priority == s.db.tasks[id].priority && s.db.tasks[o].createdAt >= s.db.tasks[id].createdAt)
    ensures Enabled(s, FindNone(pid, client)) <==> pid in s.procs && s.procs[pid].serving && forall o :: !Waits(s, client, o)
  {
    forall o ensures Waits(s, client, o) <==> Claimable(s.db.tasks, LockedIds(s), client, o) {
      UnlockedIs(s, o);
    }
  }

  /** A client can submit a task at any time, and cancel exactly its own pending or running tasks that are
      not locked. */
  lemma CancelRunsWhen(s: Sys, client: string, id: nat, input: TaskInput)
    ensures Enabled(s, Create(client, input))
    ensures Enabled(s, Cancel(client, id)) <==>
              && id in s.db.tasks && s.db.tasks[id].client == client && s.db.tasks[id].status in {Pending, Running}
              && Unlocked(s, id)
  {
    UnlockedIs(s, id);
  }

  /** A report waits for a lock on its row and for nothing else: it looks neither at the status of the row
      nor at its owner. */
  lemma ReportRunsWhen(s: Sys, k: nat, err: string)
    requires Base(s) && k in s.claims
    ensures s.claims[k].stage == Started ==>
              && (Enabled(s, Complete(k)) <==> Unlocked(s, s.claims[k].snap.id))
              && (Enabled(s, Fail(k, err)) <==> Unlocked(s, s.claims[k].snap.id))
    ensures s.claims[k].stage == Picked ==>
              Enabled(s, Start(k, false)) && (Enabled(s, Start(k, true)) <==> Unlocked(s, s.claims[k].snap.id))
  {
    UnlockedIs(s, s.claims[k].snap.id);
    ClaimedIsThere(s, k);
  }

  lemma ClaimedIsThere(s: Sys, k: nat)
    requires Base(s) && k in s.claims
    ensures s.claims[k].snap.id in s.db.tasks && s.claims[k].pid in s.procs
  {
    assert SnapOk(s.db.tasks, s.claims[k].snap);
  }

  /** The same goes for a watchdog that handles what it has found. */
  lemma WatchRunsWhen(s: Sys, pid: nat, snap: Task, err: string)
    requires Base(s) && pid in s.procs && (pid, snap) in s.found
    ensures Enabled(s, WatchFail(pid, snap, err)) <==> Unlocked(s, snap.id)
  {
    UnlockedIs(s, snap.id);
    assert SnapOk(s.db.tasks, (pid, snap).1);
  }

  /** What a watchdog has found is what FindStaleRunningTasks returns; the others keep their lists. */
  lemma FindIsStatement(s: Sys, pid: nat, timeout: int, q: nat, t: Task)
    requires Base(s)
    ensures Enabled(s, Find(pid, timeout)) <==> pid in s.procs && s.procs[pid].serving
    ensures Enabled(s, Find(pid, timeout)) ==>
              ((q, t) in FoundAfter(s, Find(pid, timeout)) <==>
                 if q == pid then t.id in s.db.tasks && s.db.tasks[t.id] == t && t.status == Running && t.startedAt.Some?
                                  && t.startedAt.value < s.clock - timeout
                 else (q, t) in s.found)
  {
    if t in StaleTasks(s.db.tasks, s.clock - timeout) {
      var id :| id in s.db.tasks && IsStale(s.db.tasks[id], s.clock - timeout) && s.db.tasks[id] == t;
      assert RowOk(id, s.db.tasks[id]);
    }
    assert (q, t) == (q, t);
  }

  lemma StopsServingWhen(s: Sys, pid: nat)
    ensures Enabled(s, Drain(pid)) <==>
              pid in s.procs && forall k | k in ClaimsOf(s.claims, pid) :: s.claims[k].stage in {Queued, Picked, Started}
  {
    forall k ensures k in ClaimsOf(s.claims, pid) <==> k in s.claims && s.claims[k].pid == pid {
    }
  }

  lemma ExitsWhen(s: Sys, pid: nat)
    ensures Enabled(s, Exit(pid)) <==> pid in s.procs && !s.procs[pid].serving && ClaimsOf(s.claims, pid) == {}
  {
    forall k ensures k in ClaimsOf(s.claims, pid) <==> k in s.claims && s.claims[k].pid == pid {
    }
  }

  /** A process can be started under any name and die at any time. It stops serving exactly when its scheduler
      has nothing under way, and exits exactly when, after that, its workers have reported on everything. */
  lemma ProcessRunsWhen(s: Sys, pid: nat, name: string, recovered: bool)
    ensures Enabled(s, Spawn(pid, name, recovered)) <==> pid !in s.procs
    ensures Enabled(s, Crash(pid)) <==> pid in s.procs
    ensures Enabled(s, Drain(pid)) <==>
              pid in s.procs && forall k | k in ClaimsOf(s.claims, pid) :: s.claims[k].stage in {Queued, Picked, Started}
    ensures Enabled(s, Exit(pid)) <==> pid in s.procs && !s.procs[pid].serving && ClaimsOf(s.claims, pid) == {}
  {
    StopsServingWhen(s, pid);
    ExitsWhen(s, pid);
  }

  /** What a watchdog has found it keeps until it has handled it, looks again, or stops with its process. */
  lemma ListAfter(s: Sys, l: Label, q: nat, t: Task)
    requires Enabled(s, l) && !(l.Find? && l.pid == q)
    ensures (q, t) in FoundAfter(s, l) <==>
              && (q, t) in s.found
              && !(l.WatchFail? && l.pid == q && l.snap == t) && l !in {Forget(q), Drain(q), Exit(q), Crash(q)}
  {
    assert (q, t).0 == q && (q, t).1 == t;
  }

  // ---------------------------------------------------------------- the claim transaction

  lemma LockThenCommit(s: Sys, pid: nat, id: nat)
    requires Base(s) && Enabled(s, LockRow(pid, id))
    ensures var l, s1 := LockRow(pid, id), Apply(s, LockRow(pid, id));
            && s1.db.tasks == s.db.tasks && s1.db.dead == s.db.dead
            && Base(s1) && s1.procs == s.procs
            && s.nextClaim in s1.claims && s1.claims[s.nextClaim] == Claim(pid, s.db.tasks[id], Locked)
            && Enabled(s1, Commit(s.nextClaim))
  {
    var l := LockRow(pid, id);
    BaseStep(s, l);
    StepsAreStatements(s, l);
  }

  /** DequeueTaskForClient is a lock and a commit: the row it may take around the locks of others,
      the table it leaves, and the snapshot it hands out. */
  lemma DequeueIsTwoSteps(s: Sys, pid: nat, id: nat)
    requires Base(s) && pid in s.procs && s.procs[pid].serving && id in s.db.tasks
    requires Best(s.db.tasks, LockedIds(s), s.db.tasks[id].client, id)
    ensures var k, name := s.nextClaim, s.procs[pid].name;
            && Enabled(s, LockRow(pid, id))
            && var s1 := Apply(s, LockRow(pid, id));
            && Enabled(s1, Commit(k))
            && RowWrites(s1.db.tasks, s1, Commit(k)) == s.db.tasks[id := s.db.tasks[id].(status := Running, processedBy := Some(name))]
            && k in ClaimsAfter(s1, Commit(k)) && ClaimsAfter(s1, Commit(k))[k] == Claim(pid, Snapshot(s.db.tasks[id], name), InHand)
  {
    assert RowOk(id, s.db.tasks[id]);
    LockThenCommit(s, pid, id);
    var s1 := Apply(s, LockRow(pid, id));
    StepsAreStatements(s1, Commit(s.nextClaim));
  }

  // ---------------------------------------------------------------- one run of a task

  /** How a worker reports on the task of claim k. */
  function Report(k: nat, x: Execution): Label {
    if !x.recorded then Drop(k)
    else match Outcome(x.handled)
         case Some(err) => Fail(k, err)
         case None => Complete(k)
  }

  predicate CanReport(s: Sys, k: nat) {
    AtStage(s, k, Picked) && Writable(s, s.claims[k].snap.id)
  }

  lemma BeginStep(s: Sys, k: nat, x: Execution)
    requires Base(s) && CanReport(s, k) && s.clock == x.begin
    ensures Enabled(s, Start(k, x.marked))
    ensures var s1 := Apply(s, Start(k, x.marked));
            && Db(s1.db.tasks, s1.db.dead, s.db.nextId) == MarkedDb(s.db, s.claims[k].snap, x)
            && Base(s1) && s1.clock == s.clock && s1.procs == s.procs
            && k in s1.claims && s1.claims[k] == Claim(s.claims[k].pid, s.claims[k].snap, Started)
            && Writable(s1, s.claims[k].snap.id)
  {
    var l := Start(k, x.marked);
    BaseStep(s, l);
    StepsAreStatements(s, l);
    SameLocks(s, l);
    SameStep(s, l);
  }

  lemma SameLocks(s: Sys, l: Label)
    requires Enabled(s, l) && (l.Start? || l.Tick?)
    ensures LockedIds(Apply(s, l)) == LockedIds(s)
  {
    forall id ensures id in LockedIds(Apply(s, l)) <==> id in LockedIds(s) {
      if k :| k in ClaimsAfter(s, l) && ClaimsAfter(s, l)[k].stage.Locked? && ClaimsAfter(s, l)[k].snap.id == id {
        assert s.claims[k].snap.id == id && s.claims[k].stage.Locked?;
      }
      if k :| k in s.claims && s.claims[k].stage.Locked? && s.claims[k].snap.id == id {
        assert ClaimsAfter(s, l)[k] == s.claims[k];
      }
    }
  }

  lemma WaitStep(s: Sys, now: int)
    requires Base(s) && s.clock <= now
    ensures var s' := Apply(s, Tick(now));
            && s'.db == s.db && s'.claims == s.claims && s'.procs == s.procs && s'.clock == now && Base(s')
  {
    BaseStep(s, Tick(now));
    StepsAreStatements(s, Tick(now));
  }

  lemma EndStep(s: Sys, k: nat, x: Execution)
    requires Base(s) && AtStage(s, k, Started) && Writable(s, s.claims[k].snap.id) && s.clock == x.end
    ensures Enabled(s, Report(k, x))
    ensures Db(RowWrites(s.db.tasks, s, Report(k, x)), DeadWrites(s, Report(k, x)), s.db.nextId) == RecordedDb(s.db, s.claims[k].snap, x)
    ensures k !in ClaimsAfter(s, Report(k, x))
  {
    StepsAreStatements(s, Report(k, x));
  }

  /** Process is a start, the time the handler takes, and a report: the tables after these three steps
      are those that Pool.Process promises, and the claim is gone. */
  lemma ProcessIsThreeSteps(s: Sys, k: nat, x: Execution)
    requires Base(s) && CanReport(s, k) && s.clock == x.begin <= x.end
    ensures var mark, wait, report := Start(k, x.marked), Tick(x.end), Report(k, x);
            && Enabled(s, mark)
            && var s1 := Apply(s, mark);
            && Enabled(s1, wait)
            && var s2 := Apply(s1, wait);
            && Enabled(s2, report)
            && Db(RowWrites(s2.db.tasks, s2, report), DeadWrites(s2, report), s.db.nextId) == ProcessedDb(s.db, s.claims[k].snap, x)
            && k !in ClaimsAfter(s2, report)
  {
    BeginStep(s, k, x);
    var s1 := Apply(s, Start(k, x.marked));
    WaitStep(s1, x.end);
    SameLocks(s1, Tick(x.end));
    var s2 := Apply(s1, Tick(x.end));
    EndStep(s2, k, x);
  }
}
