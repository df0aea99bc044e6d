/** No task is lost. When bookkeeping writes succeed, a running row is being worked on by the
    instance it names, or that instance is gone. */
module Recovery {
  import opened Tasks
  import opened Protocol
  import opened Unconditional
  import opened Coherence
  import opened Settled

  /** Settled, and no write of ours fails: startup recovery works, and no holder lets go of its
      task without recording an outcome. */
  ghost predicate ReliableStep(s: Sys, l: Label) {
    SettledStep(s, l) && !l.Drop? && (l.Spawn? ==> l.recovered)
  }

  ghost predicate ReliableRun(states: seq<Sys>, labels: seq<Label>) {
    SettledRun(states, labels) && forall i {:trigger labels[i]} | 0 <= i < |labels| :: ReliableStep(states[i], labels[i])
  }

  predicate Alive(procs: map<nat, Proc>, name: Option<string>) {
    exists p | p in procs :: Some(procs[p].name) == name
  }

  /** A running row that nobody holds belonged to a process that is gone. */
  predicate AttendedOk(r: Task, held: bool, procs: map<nat, Proc>) {
    r.status == Running ==> held || !Alive(procs, r.processedBy)
  }

  ghost predicate AllAttended(s: Sys) {
    forall id | id in s.db.tasks :: AttendedOk(s.db.tasks[id], Held(s, id), s.procs)
  }

  /** How a claim can disappear. */
  lemma ClaimGone(s: Sys, l: Label, k: nat)
    requires Enabled(s, l) && k in s.claims && k !in ClaimsAfter(s, l)
    ensures || l == Rollback(k) || l == Complete(k) || (l.Fail? && l.k == k) || l == Drop(k)
            || l == Crash(s.claims[k].pid)
  {
  }

  lemma HeldStays(s: Sys, l: Label, k: nat)
    requires Enabled(s, l) && k in s.claims && k in ClaimsAfter(s, l) && k < s.nextClaim
    ensures HeldIn(ClaimsAfter(s, l), s.claims[k].snap.id)
  {
    ClaimOrigin(s, l, k);
    assert ClaimsAfter(s, l)[k].snap.id == s.claims[k].snap.id;
  }

  /** Only a spawn brings a name to life. */
  lemma AliveOrigin(s: Sys, l: Label, name: Option<string>)
    requires Enabled(s, l) && Alive(ProcsAfter(s, l), name)
    ensures Alive(s.procs, name) || (l.Spawn? && name == Some(l.name))
  {
    var p :| p in ProcsAfter(s, l) && Some(ProcsAfter(s, l)[p].name) == name;
    if p in s.procs && !(l.Spawn? && l.pid == p) {
      assert Some(s.procs[p].name) == name;
    }
  }

  lemma CrashEnds(s: Sys, l: Label, k: nat)
    requires SettledInv(s) && Enabled(s, l) && k in s.claims && l == Crash(s.claims[k].pid)
    requires s.db.tasks[s.claims[k].snap.id].status == Running
    ensures !Alive(ProcsAfter(s, l), s.db.tasks[s.claims[k].snap.id].processedBy)
  {
    assert HolderOk(s.db.tasks, s.procs, s.claims[k]);
    assert s.claims[k].stage.Locked? ==> IsLock(s.claims, k);
  }

  /** Otherwise a claim ends with its attempt. */
  lemma EndsAttempt(s: Sys, l: Label, k: nat)
    requires Base(s) && Enabled(s, l) && k in s.claims && s.claims[k].snap.id in s.db.tasks
    requires l == Rollback(k) || l == Complete(k) || (l.Fail? && l.k == k)
    ensures var r := s.db.tasks[s.claims[k].snap.id]; r.status != Running || RowAfter(r, s, l).status != Running
  {
    if l == Rollback(k) {
      assert IsLock(s.claims, k) && LockOk(s.db.tasks, s.claims[k].snap);
    } else {
      ReportWrites(s, l, k);
    }
  }

  lemma ReportWrites(s: Sys, l: Label, k: nat)
    requires RowsOk(s.db.tasks, s.db.nextId) && Enabled(s, l) && k in s.claims && s.claims[k].snap.id in s.db.tasks
    requires l == Complete(k) || (l.Fail? && l.k == k)
    ensures var w := WriteTo(s, l, s.db.tasks[s.claims[k].snap.id]); w.Finish? || w.FailAs?
  {
    assert RowOk(s.claims[k].snap.id, s.db.tasks[s.claims[k].snap.id]);
  }

  /** A held row that is still running after the step is still held, or its process has crashed. */
  lemma HeldRunning(s: Sys, l: Label, id: nat)
    requires SettledInv(s) && Enabled(s, l) && ReliableStep(s, l) && id in s.db.tasks
    requires s.db.tasks[id].status == Running && RowAfter(s.db.tasks[id], s, l).status == Running && Held(s, id)
    ensures HeldIn(ClaimsAfter(s, l), id) || !Alive(ProcsAfter(s, l), s.db.tasks[id].processedBy)
  {
    var k :| k in s.claims && s.claims[k].snap.id == id;
    assert SnapOk(s.db.tasks, s.claims[k].snap) && RowOk(id, s.db.tasks[id]);
    if k in ClaimsAfter(s, l) {
      HeldStays(s, l, k);
    } else {
      ClaimGone(s, l, k);
      if l == Crash(s.claims[k].pid) {
        CrashEnds(s, l, k);
      } else {
        EndsAttempt(s, l, k);
      }
    }
  }

  lemma StillRunning(r: Task, w: Write)
    requires Do(r, w).status == Running
    ensures w.TakeBy? || (r.status == Running && Do(r, w).processedBy == r.processedBy)
  {
  }

  lemma TakenIsHeld(s: Sys, l: Label, id: nat)
    requires Base(s) && Enabled(s, l) && id in s.db.tasks && WriteTo(s, l, s.db.tasks[id]).TakeBy?
    ensures HeldIn(ClaimsAfter(s, l), id)
  {
    assert RowOk(id, s.db.tasks[id]);
    assert ClaimsAfter(s, l)[l.k].snap.id == id;
  }

  lemma AttendedStep(s: Sys, l: Label, id: nat)
    requires SettledInv(s) && AllAttended(s) && Enabled(s, l) && ReliableStep(s, l) && id in s.db.tasks
    ensures AttendedOk(RowAfter(s.db.tasks[id], s, l), HeldIn(ClaimsAfter(s, l), id), ProcsAfter(s, l))
  {
    var r, w := s.db.tasks[id], WriteTo(s, l, s.db.tasks[id]);
    assert RowOk(id, r) && AttendedOk(r, Held(s, id), s.procs);
    if Do(r, w).status == Running {
      StillRunning(r, w);
      if w.TakeBy? {
        TakenIsHeld(s, l, id);
      } else if Held(s, id) {
        HeldRunning(s, l, id);
      } else {
        StaysGone(s, l, r);
      }
    }
  }

  /** An instance that is gone comes back only with a recovery, which leaves it no running row. */
  lemma StaysGone(s: Sys, l: Label, r: Task)
    requires Enabled(s, l) && ReliableStep(s, l) && !Alive(s.procs, r.processedBy)
    requires r.status == Running && Do(r, WriteTo(s, l, r)).status == Running
    ensures !Alive(ProcsAfter(s, l), r.processedBy)
  {
    if Alive(ProcsAfter(s, l), r.processedBy) {
      AliveOrigin(s, l, r.processedBy);
    }
  }

  lemma AllAttendedStep(s: Sys, l: Label)
    requires SettledInv(s) && AllAttended(s) && Enabled(s, l) && ReliableStep(s, l)
    ensures AllAttended(Apply(s, l))
  {
    forall id | id in RowWrites(s.db.tasks, s, l)
      ensures AttendedOk(RowWrites(s.db.tasks, s, l)[id], HeldIn(ClaimsAfter(s, l), id), ProcsAfter(s, l))
    {
      if id in s.db.tasks {
        RowKept(s, l, id);
        AttendedStep(s, l, id);
      }
    }
  }

  lemma {:induction false} AllAttendedRun(states: seq<Sys>, labels: seq<Label>, i: nat)
    requires ReliableRun(states, labels) && i < |states|
    ensures SettledInv(states[i]) && AllAttended(states[i])
  {
    SettledInvRun(states, labels, i);
    if i > 0 {
      AllAttendedRun(states, labels, i - 1);
      ReliableAt(states, labels, i);
      AllAttendedStep(states[i - 1], labels[i - 1]);
    }
  }

  lemma ReliableAt(states: seq<Sys>, labels: seq<Label>, i: nat)
    requires ReliableRun(states, labels) && 0 < i < |states|
    ensures var s, l := states[i - 1], labels[i - 1]; Enabled(s, l) && ReliableStep(s, l) && states[i] == Apply(s, l)
  {
    RunStep(states, labels, i);
    assert ReliableStep(states[i - 1], labels[i - 1]);
  }

  // ---------------------------------------------------------------- a process that has stopped serving

  /** It has no claim transaction open and no task on its way to its channel. */
  ghost predicate Quiescent(claims: map<nat, Claim>, procs: map<nat, Proc>) {
    forall k | k in claims && claims[k].pid in procs && !procs[claims[k].pid].serving :: claims[k].stage in {Queued, Picked, Started}
  }

  lemma ClaimOfServing(s: Sys, l: Label, k: nat)
    requires Quiescent(s.claims, s.procs) && Enabled(s, l) && k in ClaimsAfter(s, l)
    requires k in s.claims ==> s.claims[k].pid in s.procs
    requires ClaimsAfter(s, l)[k].pid in ProcsAfter(s, l) && !ProcsAfter(s, l)[ClaimsAfter(s, l)[k].pid].serving
    ensures ClaimsAfter(s, l)[k].stage in {Queued, Picked, Started}
  {
    ClaimOrigin(s, l, k);
  }

  lemma QuiescentStep(s: Sys, l: Label)
    requires Base(s) && Quiescent(s.claims, s.procs) && Enabled(s, l)
    ensures Quiescent(ClaimsAfter(s, l), ProcsAfter(s, l))
  {
    forall k | k in ClaimsAfter(s, l) && ClaimsAfter(s, l)[k].pid in ProcsAfter(s, l) && !ProcsAfter(s, l)[ClaimsAfter(s, l)[k].pid].serving
      ensures ClaimsAfter(s, l)[k].stage in {Queued, Picked, Started}
    {
      ClaimOfServing(s, l, k);
    }
  }

  /** In every run, once its scheduler has stopped, a process claims nothing more and sends nothing more. */
  lemma {:induction false} DrainedSendsNothing(states: seq<Sys>, labels: seq<Label>, i: nat)
    requires Run(states, labels) && i < |states|
    ensures Quiescent(states[i].claims, states[i].procs)
  {
    if i > 0 {
      DrainedSendsNothing(states, labels, i - 1);
      BaseRun(states, labels, i - 1);
      assert Steps(states[i - 1], labels[i - 1], states[i - 1 + 1]);
      QuiescentStep(states[i - 1], labels[i - 1]);
    }
  }

  // ---------------------------------------------------------------- no task is lost

  /** Every running task has exactly one live holder, of the process named in its row, or that
      process is gone. */
  lemma NoTaskIsLost(states: seq<Sys>, labels: seq<Label>, i: nat, id: nat)
    requires ReliableRun(states, labels) && i < |states| && id in states[i].db.tasks && states[i].db.tasks[id].status == Running
    ensures var s := states[i];
            || !Alive(s.procs, s.db.tasks[id].processedBy)
            || exists k :: && k in s.claims && s.claims[k].snap.id == id
                           && s.claims[k].pid in s.procs && Some(s.procs[s.claims[k].pid].name) == s.db.tasks[id].processedBy
                           && forall j | j in s.claims && s.claims[j].snap.id == id :: j == k
  {
    AllAttendedRun(states, labels, i);
    var s := states[i];
    assert AttendedOk(s.db.tasks[id], Held(s, id), s.procs);
    if Held(s, id) {
      var k :| k in s.claims && s.claims[k].snap.id == id;
      assert HolderOk(s.db.tasks, s.procs, s.claims[k]);
      assert s.claims[k].stage.Locked? ==> IsLock(s.claims, k);
    }
  }

  lemma NothingLeftRunning(s: Sys, pid: nat)
    requires SettledInv(s) && AllAttended(s) && pid in s.procs && NoClaimsOf(s, pid)
    ensures forall id | id in s.db.tasks :: !IsOrphanOf(s.db.tasks[id], s.procs[pid].name)
  {
    forall id | id in s.db.tasks ensures !IsOrphanOf(s.db.tasks[id], s.procs[pid].name) {
      assert AttendedOk(s.db.tasks[id], Held(s, id), s.procs);
      if k :| k in s.claims && s.claims[k].snap.id == id {
        assert HolderOk(s.db.tasks, s.procs, s.claims[k]);
        assert s.claims[k].stage.Locked? ==> IsLock(s.claims, k);
      }
    }
  }

  /** Graceful shutdown: a process that has drained its workers leaves no row running in its name. */
  lemma ShutdownLeavesNothingRunning(states: seq<Sys>, labels: seq<Label>, i: nat, pid: nat)
    requires ReliableRun(states, labels) && i < |states| && Enabled(states[i], Exit(pid))
    ensures forall id | id in states[i].db.tasks :: !IsOrphanOf(states[i].db.tasks[id], states[i].procs[pid].name)
  {
    AllAttendedRun(states, labels, i);
    NothingLeftRunning(states[i], pid);
  }

  // ---------------------------------------------------------------- something can always be done

  /** An orphan is picked up by the restart of its instance, at no cost in retries. */
  lemma RestartRequeues(s: Sys, id: nat, pid: nat, name: string)
    requires SettledInv(s) && AllAttended(s) && id in s.db.tasks && pid !in s.procs
    requires IsOrphanOf(s.db.tasks[id], name) && !Held(s, id)
    ensures Enabled(s, Spawn(pid, name, true)) && ReliableStep(s, Spawn(pid, name, true))
    ensures var s' := Apply(s, Spawn(pid, name, true));
            && id in s'.db.tasks && s'.db.tasks[id].status == Pending && s'.db.tasks[id].retryCount == s.db.tasks[id].retryCount
            && s'.db.tasks[id].processedBy == None && s'.db.tasks[id].startedAt == None
  {
    assert AttendedOk(s.db.tasks[id], Held(s, id), s.procs);
    assert RowOk(id, s.db.tasks[id]);
  }

  /** Failing an orphan that a watchdog has read and nobody has touched since is a settled step,
      and it takes the task out of the running state. */
  lemma WatchdogRecovers(s: Sys, id: nat, pid: nat, err: string)
    requires SettledInv(s) && id in s.db.tasks && s.db.tasks[id].status == Running && !Held(s, id)
    requires pid in s.procs && (pid, s.db.tasks[id]) in s.found
    ensures var r := s.db.tasks[id];
            var l := WatchFail(pid, r, err);
            && Enabled(s, l) && ReliableStep(s, l)
            && id in RowWrites(s.db.tasks, s, l)
            && RowWrites(s.db.tasks, s, l)[id].status == (if r.retryCount < r.maxRetries then Pending else Failed)
  {
    assert RowOk(id, s.db.tasks[id]);
    assert id !in LockedIds(s);
  }

  /** Every pending task's client is listed for scheduling, and unless the task itself is being
      claimed, a serving process can claim a task of that client that is not worse. */
  lemma PendingCanBeServed(s: Sys, id: nat, pid: nat)
    requires SettledInv(s) && id in s.db.tasks && s.db.tasks[id].status == Pending
    requires pid in s.procs && s.procs[pid].serving
    ensures s.db.tasks[id].client in PendingClients(s.db.tasks)
    ensures id in LockedIds(s) ||
            exists b :: && Enabled(s, LockRow(pid, b)) && SettledStep(s, LockRow(pid, b))
                        && s.db.tasks[b].client == s.db.tasks[id].client && !Before(s.db.tasks[id], s.db.tasks[b])
  {
    if id !in LockedIds(s) {
      var client := s.db.tasks[id].client;
      assert Claimable(s.db.tasks, LockedIds(s), client, id);
      BestExists(s.db.tasks, LockedIds(s), client);
      var b :| Best(s.db.tasks, LockedIds(s), client, b);
      assert Enabled(s, LockRow(pid, b));
    }
  }
}
