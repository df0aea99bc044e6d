/** Every task that has not ended can still be completed, without any write failing and without any
    cancelling: whoever holds it finishes; an orphan's instance restarts, after finishing what it still
    holds if it is alive; and a waiting task gets its turn once the better ones have been served. */
module Progress {
  import opened Tasks
  import opened Protocol
  import opened Unconditional
  import opened Coherence
  import opened Settled
  import opened Outcomes
  import opened Recovery
  import opened Exclusion

  /** A sequence of reliable steps from one state to another, none of which is a client's or a
      watchdog's. */
  ghost predicate WorkPath(s: Sys, ls: seq<Label>, s': Sys)
    decreases |ls|
  {
    if ls == [] then s == s'
    else Enabled(s, ls[0]) && ReliableStep(s, ls[0]) && IsWork(ls[0]) && WorkPath(Apply(s, ls[0]), ls[1..], s')
  }

  predicate IsWork(l: Label) {
    !l.Cancel? && !l.Create? && !l.WatchFail? && !l.Fail? && !l.Crash?
  }

  ghost predicate CanWork(s: Sys, s': Sys) {
    exists ls :: WorkPath(s, ls, s')
  }

  lemma WorkSelf(s: Sys)
    ensures CanWork(s, s)
  {
    assert WorkPath(s, [], s);
  }

  lemma WorkCons(s: Sys, l: Label, s': Sys)
    requires Enabled(s, l) && ReliableStep(s, l) && IsWork(l) && CanWork(Apply(s, l), s')
    ensures CanWork(s, s')
  {
    var ls :| WorkPath(Apply(s, l), ls, s');
    assert ([l] + ls)[1..] == ls;
    assert WorkPath(s, [l] + ls, s');
  }

  lemma {:induction false} WorkJoinAlong(s: Sys, ls: seq<Label>, t: Sys, s': Sys)
    requires WorkPath(s, ls, t) && CanWork(t, s')
    ensures CanWork(s, s')
    decreases |ls|
  {
    if ls != [] {
      WorkJoinAlong(Apply(s, ls[0]), ls[1..], t, s');
      WorkCons(s, ls[0], s');
    }
  }

  lemma WorkJoin(s: Sys, t: Sys, s': Sys)
    requires CanWork(s, t) && CanWork(t, s')
    ensures CanWork(s, s')
  {
    var ls :| WorkPath(s, ls, t);
    WorkJoinAlong(s, ls, t, s');
  }

  // ---------------------------------------------------------------- a held task

  /** Only the row of this id, and only this claim, differ. */
  ghost predicate OnlyThis(s: Sys, s': Sys, id: nat, k: nat) {
    && s'.procs == s.procs && s'.claims - {k} == s.claims - {k} && s'.db.tasks.Keys == s.db.tasks.Keys
    && forall i | i in s.db.tasks && i != id :: s'.db.tasks[i] == s.db.tasks[i]
  }

  lemma OnwardRow(s: Sys, k: nat, i: nat)
    requires Base(s) && k in s.claims && Enabled(s, Onward(s, k)) && i in s.db.tasks && i != s.claims[k].snap.id
    ensures WriteTo(s, Onward(s, k), s.db.tasks[i]) == Keep
  {
    assert RowOk(i, s.db.tasks[i]);
  }

  lemma OnwardRows(s: Sys, k: nat)
    requires Base(s) && k in s.claims && Enabled(s, Onward(s, k))
    ensures RowWrites(s.db.tasks, s, Onward(s, k)).Keys == s.db.tasks.Keys
    ensures forall i | i in s.db.tasks && i != s.claims[k].snap.id :: RowWrites(s.db.tasks, s, Onward(s, k))[i] == s.db.tasks[i]
  {
    forall i | i in s.db.tasks && i != s.claims[k].snap.id ensures RowWrites(s.db.tasks, s, Onward(s, k))[i] == s.db.tasks[i] {
      OnwardRow(s, k, i);
      RowKept(s, Onward(s, k), i);
    }
  }

  lemma OnwardClaims(s: Sys, k: nat)
    requires k in s.claims && Enabled(s, Onward(s, k))
    ensures ClaimsAfter(s, Onward(s, k)) - {k} == s.claims - {k} && ProcsAfter(s, Onward(s, k)) == s.procs
  {
  }

  lemma OnwardTouches(s: Sys, k: nat)
    requires Base(s) && k in s.claims && Enabled(s, Onward(s, k))
    ensures OnlyThis(s, Apply(s, Onward(s, k)), s.claims[k].snap.id, k)
  {
    OnwardRows(s, k);
    OnwardClaims(s, k);
  }

  lemma OnlyThisChains(s: Sys, t: Sys, s': Sys, id: nat, k: nat)
    requires OnlyThis(s, t, id, k) && OnlyThis(t, s', id, k)
    ensures OnlyThis(s, s', id, k)
  {
  }

  lemma OnwardIsWork(s: Sys, k: nat)
    requires SettledInv(s) && k in s.claims
    ensures Enabled(s, Onward(s, k)) && ReliableStep(s, Onward(s, k)) && IsWork(Onward(s, k))
  {
    OnwardEnabled(s, k);
    OnwardKind(s, k);
  }

  lemma OnwardKind(s: Sys, k: nat)
    requires k in s.claims
    ensures var l := Onward(s, k); !l.Drop? && !l.Spawn? && IsWork(l)
  {
  }

  lemma LastStep(s: Sys, k: nat)
    requires SettledInv(s) && k in s.claims && s.claims[k].stage.Started?
    ensures Onward(s, k) == Complete(k) && Enabled(s, Complete(k))
    ensures CompletedIn(Apply(s, Complete(k)), s.claims[k].snap.id) && k !in Apply(s, Complete(k)).claims
  {
    CompleteWrites(s, k);
    Finishes(s, Complete(k), s.claims[k].snap.id);
  }

  /** Whoever holds a task can complete it, and leaves everything else alone. */
  lemma {:induction false} HolderCompletes(s: Sys, k: nat) returns (s': Sys)
    requires SettledInv(s) && k in s.claims
    ensures CanWork(s, s') && SettledInv(s') && CompletedIn(s', s.claims[k].snap.id)
    ensures OnlyThis(s, s', s.claims[k].snap.id, k) && k !in s'.claims
    decreases StageRank(s.claims[k].stage)
  {
    var l := Onward(s, k);
    OnwardIsWork(s, k);
    OnwardTouches(s, k);
    SettledInvStep(s, l);
    var t := Apply(s, l);
    if s.claims[k].stage.Started? {
      LastStep(s, k);
      s' := t;
      WorkSelf(s');
    } else {
      OnwardAdvances(s, k);
      s' := HolderCompletes(t, k);
      OnlyThisChains(s, t, s', s.claims[k].snap.id, k);
    }
    WorkCons(s, l, s');
  }

  // ---------------------------------------------------------------- a waiting task

  ghost predicate Awaits(s: Sys, id: nat, client: string, pid: nat) {
    SettledInv(s) && id in Waiting(s, client) && pid in s.procs && s.procs[pid].serving
  }

  lemma BestIsLockable(s: Sys, pid: nat, b: nat, client: string)
    requires pid in s.procs && s.procs[pid].serving && b in s.db.tasks && Best(s.db.tasks, LockedIds(s), client, b)
    ensures Enabled(s, LockRow(pid, b)) && ReliableStep(s, LockRow(pid, b))
  {
    assert s.db.tasks[b].client == client;
  }

  lemma LockWritesNothing(s: Sys, l: Label)
    requires RowsOk(s.db.tasks, s.db.nextId) && Enabled(s, l) && l.LockRow?
    ensures RowWrites(s.db.tasks, s, l) == s.db.tasks && ProcsAfter(s, l) == s.procs
  {
  }

  lemma LockAddsClaim(s: Sys, l: Label)
    requires ClaimsOk(s.db.tasks, s.claims, s.procs, s.nextClaim) && RowsOk(s.db.tasks, s.db.nextId) && Enabled(s, l) && l.LockRow?
    ensures s.nextClaim !in s.claims && s.nextClaim in ClaimsAfter(s, l) && ClaimsAfter(s, l)[s.nextClaim].snap.id == l.id
    ensures ClaimsAfter(s, l) - {s.nextClaim} == s.claims
  {
    assert RowOk(l.id, s.db.tasks[l.id]);
    assert s.nextClaim !in s.claims;
  }

  /** A scheduler takes the best waiting task of the client, and sees it completed. */
  lemma ServeBest(s: Sys, pid: nat, b: nat, client: string) returns (s': Sys)
    requires SettledInv(s) && pid in s.procs && s.procs[pid].serving
    requires b in s.db.tasks && Best(s.db.tasks, LockedIds(s), client, b)
    ensures CanWork(s, s') && SettledInv(s') && CompletedIn(s', b) && s'.procs == s.procs && s'.claims == s.claims
    ensures s'.db.tasks.Keys == s.db.tasks.Keys && forall i | i in s.db.tasks && i != b :: s'.db.tasks[i] == s.db.tasks[i]
  {
    var l, k := LockRow(pid, b), s.nextClaim;
    BestIsLockable(s, pid, b, client);
    LockWritesNothing(s, l);
    LockAddsClaim(s, l);
    s' := ServeLocked(s, l, k);
  }

  lemma ServeLocked(s: Sys, l: Label, k: nat) returns (s': Sys)
    requires SettledInv(s) && Enabled(s, l) && ReliableStep(s, l) && IsWork(l)
    requires RowWrites(s.db.tasks, s, l) == s.db.tasks && ProcsAfter(s, l) == s.procs
    requires k !in s.claims && k in ClaimsAfter(s, l) && ClaimsAfter(s, l) - {k} == s.claims
    ensures var b := ClaimsAfter(s, l)[k].snap.id;
            && CanWork(s, s') && SettledInv(s') && CompletedIn(s', b) && s'.procs == s.procs && s'.claims == s.claims
            && s'.db.tasks.Keys == s.db.tasks.Keys && forall i | i in s.db.tasks && i != b :: s'.db.tasks[i] == s.db.tasks[i]
  {
    SettledInvStep(s, l);
    var t := Apply(s, l);
    s' := HolderCompletes(t, k);
    WithoutNew(s'.claims, k);
    WorkCons(s, l, s');
  }

  lemma WithoutNew(claims: map<nat, Claim>, k: nat)
    requires k !in claims
    ensures claims - {k} == claims
  {
  }

  lemma ServedIsGone(s: Sys, s': Sys, client: string, b: nat)
    requires b in Waiting(s, client) && CompletedIn(s', b) && s'.claims == s.claims
    requires s'.db.tasks.Keys == s.db.tasks.Keys && forall i | i in s.db.tasks && i != b :: s'.db.tasks[i] == s.db.tasks[i]
    ensures Waiting(s', client) == Waiting(s, client) - {b} && |Waiting(s', client)| < |Waiting(s, client)|
  {
    assert Waiting(s', client) == Waiting(s, client) - {b};
  }

  lemma {:induction false} WaitingCompletes(s: Sys, id: nat, client: string, pid: nat) returns (s': Sys)
    requires Awaits(s, id, client, pid)
    ensures CanWork(s, s') && CompletedIn(s', id)
    decreases |Waiting(s, client)|
  {
    BestExists(s.db.tasks, LockedIds(s), client);
    assert Claimable(s.db.tasks, LockedIds(s), client, id);
    var b :| Best(s.db.tasks, LockedIds(s), client, b);
    assert b in Waiting(s, client);
    var t := ServeBest(s, pid, b, client);
    if b == id {
      s' := t;
    } else {
      ServedIsGone(s, t, client, b);
      s' := WaitingCompletes(t, id, client, pid);
      WorkJoin(s, t, s');
    }
  }

  // ---------------------------------------------------------------- starting a process

  lemma SpawnIsWork(s: Sys, l: Label)
    requires SettledInv(s) && l.Spawn? && l.recovered && l.pid !in s.procs && forall q | q in s.procs :: s.procs[q].name != l.name
    ensures Enabled(s, l) && ReliableStep(s, l) && IsWork(l)
    ensures ClaimsAfter(s, l) == s.claims && l.pid in ProcsAfter(s, l) && ProcsAfter(s, l)[l.pid].serving
  {
  }

  lemma SpawnLeaves(s: Sys, l: Label, id: nat)
    requires RowsOk(s.db.tasks, s.db.nextId) && Enabled(s, l) && l.Spawn? && l.recovered && id in s.db.tasks
    requires s.db.tasks[id].status == Pending || IsOrphanOf(s.db.tasks[id], l.name)
    ensures var tasks' := RowWrites(s.db.tasks, s, l);
            id in tasks' && tasks'[id].status == Pending && tasks'[id].client == s.db.tasks[id].client
  {
    RowKept(s, l, id);
  }

  /** A process started under a name that is not in use serves at once: a task that waits, or that is an
      orphan of this name, gets its turn. */
  lemma SpawnCompletes(s: Sys, l: Label, id: nat) returns (s': Sys)
    requires SettledInv(s) && l.Spawn? && l.recovered && l.pid !in s.procs && forall q | q in s.procs :: s.procs[q].name != l.name
    requires id in s.db.tasks && id !in LockedIds(s) && (s.db.tasks[id].status == Pending || IsOrphanOf(s.db.tasks[id], l.name))
    ensures CanWork(s, s') && CompletedIn(s', id)
  {
    SpawnIsWork(s, l);
    SpawnLeaves(s, l, id);
    SettledInvStep(s, l);
    var t := Apply(s, l);
    assert Claimable(t.db.tasks, LockedIds(t), s.db.tasks[id].client, id);
    s' := WaitingCompletes(t, id, s.db.tasks[id].client, l.pid);
    WorkCons(s, l, s');
  }

  lemma PendingCompletes(s: Sys, id: nat) returns (s': Sys)
    requires SettledInv(s) && id in s.db.tasks && s.db.tasks[id].status == Pending
    ensures CanWork(s, s') && CompletedIn(s', id)
  {
    if id in LockedIds(s) {
      var k :| k in s.claims && s.claims[k].snap.id == id;
      s' := HolderCompletes(s, k);
    } else if pid :| pid in s.procs && s.procs[pid].serving {
      assert id in Waiting(s, s.db.tasks[id].client);
      s' := WaitingCompletes(s, id, s.db.tasks[id].client, pid);
    } else {
      var pid := FreshPid(s.procs.Keys);
      var name := UnusedName(s.procs, s.procs.Keys);
      s' := SpawnCompletes(s, Spawn(pid, name, true), id);
    }
  }

  // ---------------------------------------------------------------- restarting a process

  /** The row of this task stays as it is, and nobody comes to hold it. */
  ghost predicate LeavesOrphan(s: Sys, t: Sys, id: nat) {
    SettledInv(t) && id in s.db.tasks && id in t.db.tasks && t.db.tasks[id] == s.db.tasks[id] && !Held(t, id)
  }

  lemma OneFewer(claims: map<nat, Claim>, k: nat)
    requires k in claims
    ensures ClaimsOf(claims - {k}, claims[k].pid) == ClaimsOf(claims, claims[k].pid) - {k}
    ensures |ClaimsOf(claims - {k}, claims[k].pid)| < |ClaimsOf(claims, claims[k].pid)|
  {
    assert ClaimsOf(claims - {k}, claims[k].pid) == ClaimsOf(claims, claims[k].pid) - {k};
  }

  /** A process completes what it holds, one task after the other. */
  lemma {:induction false} ProcessFinishes(s: Sys, pid: nat, id: nat) returns (t: Sys)
    requires SettledInv(s) && pid in s.procs && id in s.db.tasks && !Held(s, id)
    ensures CanWork(s, t) && LeavesOrphan(s, t, id) && t.procs == s.procs && NoClaimsOf(t, pid)
    decreases |ClaimsOf(s.claims, pid)|
  {
    if k :| k in s.claims && s.claims[k].pid == pid {
      var u := HolderCompletes(s, k);
      assert s.claims[k].snap.id != id;
      WithoutNew(u.claims, k);
      OneFewer(s.claims, k);
      assert !Held(u, id);
      t := ProcessFinishes(u, pid, id);
      WorkJoin(s, u, t);
    } else {
      t := s;
      WorkSelf(s);
    }
  }

  /** To drain and to exit changes neither rows nor claims. */
  lemma Retreats(s: Sys, l: Label)
    requires SettledInv(s) && Enabled(s, l) && (l.Drain? || l.Exit?)
    ensures ReliableStep(s, l) && IsWork(l) && SettledInv(Apply(s, l))
    ensures Apply(s, l).db.tasks == s.db.tasks && Apply(s, l).claims == s.claims
  {
    RetreatWrites(s, l);
    SettledInvStep(s, l);
  }

  lemma RetreatWrites(s: Sys, l: Label)
    requires Enabled(s, l) && (l.Drain? || l.Exit?)
    ensures RowWrites(s.db.tasks, s, l) == s.db.tasks && ClaimsAfter(s, l) == s.claims
  {
  }

  lemma DrainStep(s: Sys, pid: nat, id: nat) returns (t: Sys)
    requires SettledInv(s) && pid in s.procs && NoClaimsOf(s, pid) && id in s.db.tasks && !Held(s, id)
    ensures forall s' :: CanWork(t, s') ==> CanWork(s, s')
    ensures LeavesOrphan(s, t, id) && NoClaimsOf(t, pid) && t.procs == s.procs[pid := s.procs[pid].(serving := false)]
  {
    Retreats(s, Drain(pid));
    t := Apply(s, Drain(pid));
    forall s' | CanWork(t, s') ensures CanWork(s, s') {
      WorkCons(s, Drain(pid), s');
    }
  }

  lemma ExitStep(s: Sys, pid: nat, id: nat) returns (t: Sys)
    requires SettledInv(s) && pid in s.procs && !s.procs[pid].serving && NoClaimsOf(s, pid) && id in s.db.tasks && !Held(s, id)
    ensures CanWork(s, t) && LeavesOrphan(s, t, id) && t.procs == s.procs - {pid}
  {
    Retreats(s, Exit(pid));
    t := Apply(s, Exit(pid));
    WorkSelf(t);
    WorkCons(s, Exit(pid), t);
  }

  lemma WithoutServing(procs: map<nat, Proc>, pid: nat)
    requires pid in procs
    ensures procs[pid := procs[pid].(serving := false)] - {pid} == procs - {pid}
  {
  }

  /** A process that holds nothing stops, and its name is free. */
  lemma ProcessExits(s: Sys, pid: nat, id: nat) returns (t: Sys)
    requires SettledInv(s) && pid in s.procs && NoClaimsOf(s, pid) && id in s.db.tasks && !Held(s, id)
    ensures CanWork(s, t) && LeavesOrphan(s, t, id) && t.procs == s.procs - {pid}
  {
    var u := DrainStep(s, pid, id);
    t := ExitStep(u, pid, id);
    WithoutServing(s.procs, pid);
  }

  /** An orphan whose instance is still alive: a bookkeeping write has failed. The process finishes
      what it has, stops, and is started again. */
  lemma StillAliveCompletes(s: Sys, id: nat, pid: nat) returns (s': Sys)
    requires SettledInv(s) && id in s.db.tasks && !Held(s, id) && pid in s.procs && IsOrphanOf(s.db.tasks[id], s.procs[pid].name)
    ensures CanWork(s, s') && CompletedIn(s', id)
  {
    var name := s.procs[pid].name;
    var t := ProcessFinishes(s, pid, id);
    var u := ProcessExits(t, pid, id);
    assert forall q | q in u.procs :: q in s.procs && u.procs[q] == s.procs[q] && q != pid;
    WorkJoin(s, t, u);
    s' := OrphanCompletes(u, id, name);
    WorkJoin(s, u, s');
  }

  /** An orphan whose instance is gone: it is started again. */
  lemma OrphanCompletes(s: Sys, id: nat, name: string) returns (s': Sys)
    requires SettledInv(s) && id in s.db.tasks && IsOrphanOf(s.db.tasks[id], name) && !Held(s, id)
    requires forall q | q in s.procs :: s.procs[q].name != name
    ensures CanWork(s, s') && CompletedIn(s', id)
  {
    var pid := FreshPid(s.procs.Keys);
    assert id !in LockedIds(s);
    s' := SpawnCompletes(s, Spawn(pid, name, true), id);
  }

  lemma RunningCompletes(s: Sys, id: nat) returns (s': Sys)
    requires SettledInv(s) && id in s.db.tasks && s.db.tasks[id].status == Running
    ensures CanWork(s, s') && CompletedIn(s', id)
  {
    assert RowOk(id, s.db.tasks[id]);
    var name := s.db.tasks[id].processedBy.value;
    if k :| k in s.claims && s.claims[k].snap.id == id {
      s' := HolderCompletes(s, k);
    } else if pid :| pid in s.procs && s.procs[pid].name == name {
      s' := StillAliveCompletes(s, id, pid);
    } else {
      s' := OrphanCompletes(s, id, name);
    }
  }

  /** In every state of every settled run, whatever writes have failed in it, every task that is pending
      or running can still be completed by work alone. */
  lemma EveryTaskCanComplete(states: seq<Sys>, labels: seq<Label>, i: nat, id: nat) returns (s': Sys)
    requires SettledRun(states, labels) && i < |states|
    requires id in states[i].db.tasks && states[i].db.tasks[id].status in {Pending, Running}
    ensures CanWork(states[i], s') && CompletedIn(s', id)
  {
    SettledInvRun(states, labels, i);
    if states[i].db.tasks[id].status == Pending {
      s' := PendingCompletes(states[i], id);
    } else {
      s' := RunningCompletes(states[i], id);
    }
  }
}
