/** The orphan nobody finds: a task that was claimed, and whose process died before a worker began with
    it. It is running and has no start time, so no watchdog ever lists it. */
module Orphans {
  import opened Tasks
  import opened Protocol
  import opened Unconditional
  import opened Coherence
  import opened Settled
  import opened Outcomes
  import opened Recovery
  import opened Statements

  /** What watchdogs have read has a start time. */
  ghost predicate FoundStarted(found: set<(nat, Task)>) {
    forall f | f in found :: f.1.startedAt.Some?
  }

  ghost predicate Stranded(s: Sys, id: nat, name: string) {
    id in s.db.tasks && IsOrphanOf(s.db.tasks[id], name) && s.db.tasks[id].startedAt == None && !Held(s, id)
  }

  /** The two steps that end it: its client cancels it, or its instance restarts and recovery works. */
  predicate Rescues(l: Label, id: nat, name: string) {
    (l.Cancel? && l.id == id) || (l.Spawn? && l.recovered && l.name == name)
  }

  lemma FoundStartedStep(s: Sys, l: Label)
    requires FoundStarted(s.found) && Enabled(s, l)
    ensures FoundStarted(FoundAfter(s, l))
  {
    forall f | f in FoundAfter(s, l) ensures f.1.startedAt.Some? {
      FoundOrigin(s, l, f);
    }
  }

  lemma {:induction false} FoundStartedRun(states: seq<Sys>, labels: seq<Label>, i: nat)
    requires SettledRun(states, labels) && i < |states|
    ensures FoundStarted(states[i].found)
  {
    if i > 0 {
      FoundStartedRun(states, labels, i - 1);
      RunStep(states, labels, i);
      FoundStartedStep(states[i - 1], labels[i - 1]);
    }
  }

  /** No watchdog's list has it, and so no watchdog fails it. */
  lemma NotWatched(s: Sys, l: Label, id: nat, name: string)
    requires FoundStarted(s.found) && Stranded(s, id, name) && Enabled(s, l) && SettledStep(s, l)
    ensures l.WatchFail? ==> l.snap.id != id
  {
    if l.WatchFail? {
      assert (l.pid, l.snap).1.startedAt.Some?;
    }
  }

  /** Nobody holds it, so nobody reports on it. */
  lemma NotReported(s: Sys, l: Label, id: nat)
    requires Base(s) && Enabled(s, l) && !Held(s, id) && id in s.db.tasks
    ensures l.Commit? || l.Start? || l.Complete? || l.Fail? ==> WriteTo(s, l, s.db.tasks[id]) == Keep
  {
    assert RowOk(id, s.db.tasks[id]);
  }

  lemma StrandedWrite(s: Sys, l: Label, id: nat, name: string)
    requires SettledInv(s) && FoundStarted(s.found) && Stranded(s, id, name) && Enabled(s, l) && SettledStep(s, l)
    ensures var w := WriteTo(s, l, s.db.tasks[id]);
            if Rescues(l, id, name) then w.Abandon? || w.Requeue? else w == Keep
  {
    assert RowOk(id, s.db.tasks[id]);
    NotWatched(s, l, id, name);
    NotReported(s, l, id);
  }

  lemma RescueIffRescuer(s: Sys, l: Label, id: nat, name: string)
    requires SettledInv(s) && FoundStarted(s.found) && Stranded(s, id, name) && Enabled(s, l) && SettledStep(s, l)
    ensures RowAfter(s.db.tasks[id], s, l) != s.db.tasks[id] <==> Rescues(l, id, name)
  {
    StrandedWrite(s, l, id, name);
  }

  /** A stranded row is left exactly as it is, stranded, by every other step. */
  lemma StrandedStays(s: Sys, l: Label, id: nat, name: string)
    requires SettledInv(s) && FoundStarted(s.found) && Stranded(s, id, name) && Enabled(s, l) && SettledStep(s, l)
    requires !Rescues(l, id, name)
    ensures Stranded(Apply(s, l), id, name) && Apply(s, l).db.tasks[id] == s.db.tasks[id]
  {
    RescueIffRescuer(s, l, id, name);
    RowKept(s, l, id);
    if HeldIn(ClaimsAfter(s, l), id) {
      HeldOrigin(s, l, id);
    }
  }

  ghost predicate Unrescued(labels: seq<Label>, i: nat, j: nat, id: nat, name: string)
    requires j <= |labels|
  {
    forall t | i <= t < j :: !Rescues(labels[t], id, name)
  }

  lemma {:induction false} StrandedFrom(states: seq<Sys>, labels: seq<Label>, i: nat, j: nat, id: nat, name: string)
    requires SettledRun(states, labels) && i <= j < |states| && Stranded(states[i], id, name) && Unrescued(labels, i, j, id, name)
    ensures Stranded(states[j], id, name) && states[j].db.tasks[id] == states[i].db.tasks[id]
    decreases j
  {
    if i < j {
      assert !Rescues(labels[j - 1], id, name);
      StrandedFrom(states, labels, i, j - 1, id, name);
      SettledInvRun(states, labels, j - 1);
      FoundStartedRun(states, labels, j - 1);
      RunStep(states, labels, j);
      StrandedStays(states[j - 1], labels[j - 1], id, name);
    }
  }

  ghost predicate SameRow(s: Sys, id: nat, r: Task) {
    id in s.db.tasks && s.db.tasks[id] == r
  }

  /** However long the run goes on, the row of a stranded task stays as it is if and only if its client
      does not cancel it and its instance does not restart. */
  lemma StrandedUntilRescued(states: seq<Sys>, labels: seq<Label>, i: nat, j: nat, id: nat, name: string)
    requires SettledRun(states, labels) && i <= j < |states| && Stranded(states[i], id, name)
    ensures (forall t | i <= t <= j :: SameRow(states[t], id, states[i].db.tasks[id])) <==> Unrescued(labels, i, j, id, name)
  {
    if Unrescued(labels, i, j, id, name) {
      forall t | i <= t <= j ensures SameRow(states[t], id, states[i].db.tasks[id]) {
        StrandedFrom(states, labels, i, t, id, name);
      }
    } else {
      var t := FirstRescue(labels, i, j, id, name);
      StrandedFrom(states, labels, i, t, id, name);
      SettledInvRun(states, labels, t);
      FoundStartedRun(states, labels, t);
      RunStep(states, labels, t + 1);
      RescueIffRescuer(states[t], labels[t], id, name);
      RowKept(states[t], labels[t], id);
      assert !SameRow(states[t + 1], id, states[i].db.tasks[id]);
    }
  }

  lemma {:induction false} FirstRescue(labels: seq<Label>, i: nat, j: nat, id: nat, name: string) returns (t: nat)
    requires j <= |labels| && !Unrescued(labels, i, j, id, name)
    ensures i <= t < j && Rescues(labels[t], id, name) && Unrescued(labels, i, t, id, name)
    decreases j
  {
    if Unrescued(labels, i, j - 1, id, name) {
      t := j - 1;
    } else {
      t := FirstRescue(labels, i, j - 1, id, name);
    }
  }

  /** Nor is it in any watchdog's list at any time, whatever the timeout. */
  lemma NeverFound(states: seq<Sys>, labels: seq<Label>, i: nat, j: nat, id: nat, name: string, pid: nat)
    requires SettledRun(states, labels) && i <= j < |states| && Stranded(states[i], id, name) && Unrescued(labels, i, j, id, name)
    ensures (pid, states[i].db.tasks[id]) !in states[j].found
    ensures j < |labels| ==> !(labels[j].WatchFail? && labels[j].snap.id == id)
  {
    StrandedFrom(states, labels, i, j, id, name);
    FoundStartedRun(states, labels, j);
    assert forall f | f in states[j].found :: f != (pid, states[i].db.tasks[id]);
    if j < |labels| {
      RunStep(states, labels, j + 1);
      NotWatched(states[j], labels[j], id, name);
    }
  }

  // ---------------------------------------------------------------- and the one that is found

  /** Settled steps that do without a rescuer. */
  ghost predicate PathUnrescued(s: Sys, ls: seq<Label>, s': Sys, id: nat, name: string) {
    Path(s, ls, s') && forall i | 0 <= i < |ls| :: !Rescues(ls[i], id, name)
  }

  ghost predicate LeavesRunning(s: Sys, id: nat, name: string) {
    exists ls, s' :: PathUnrescued(s, ls, s', id, name) && !(id in s'.db.tasks && s'.db.tasks[id].status == Running)
  }

  lemma AlongTail(s: Sys, ls: seq<Label>, s': Sys, id: nat, name: string)
    requires PathUnrescued(s, ls, s', id, name) && ls != []
    ensures Enabled(s, ls[0]) && SettledStep(s, ls[0]) && !Rescues(ls[0], id, name)
    ensures PathUnrescued(Apply(s, ls[0]), ls[1..], s', id, name)
  {
  }

  lemma {:induction false} StrandedAlong(s: Sys, ls: seq<Label>, s': Sys, id: nat, name: string)
    requires SettledInv(s) && FoundStarted(s.found) && Stranded(s, id, name) && PathUnrescued(s, ls, s', id, name)
    ensures Stranded(s', id, name)
    decreases |ls|
  {
    if ls != [] {
      AlongTail(s, ls, s', id, name);
      StrandedStays(s, ls[0], id, name);
      SettledInvStep(s, ls[0]);
      FoundStartedStep(s, ls[0]);
      StrandedAlong(Apply(s, ls[0]), ls[1..], s', id, name);
    }
  }

  lemma LeavesNow(s: Sys, id: nat, name: string)
    requires id in s.db.tasks && s.db.tasks[id].status != Running
    ensures LeavesRunning(s, id, name)
  {
    assert PathUnrescued(s, [], s, id, name);
  }

  lemma LeavesNext(s: Sys, l: Label, id: nat, name: string)
    requires Enabled(s, l) && SettledStep(s, l) && !Rescues(l, id, name) && LeavesRunning(Apply(s, l), id, name)
    ensures LeavesRunning(s, id, name)
  {
    var ls, s' :| PathUnrescued(Apply(s, l), ls, s', id, name) && !(id in s'.db.tasks && s'.db.tasks[id].status == Running);
    assert ([l] + ls)[1..] == ls;
    assert PathUnrescued(s, [l] + ls, s', id, name);
  }

  ghost predicate Adrift(s: Sys, id: nat, name: string, r: Task) {
    SettledInv(s) && id in s.db.tasks && s.db.tasks[id] == r && IsOrphanOf(r, name) && r.startedAt.Some? && !Held(s, id)
  }

  /** A watchdog that has read it fails it, */
  lemma ReadIsFailed(s: Sys, id: nat, name: string, r: Task, pid: nat)
    requires Adrift(s, id, name, r) && pid in s.procs && (pid, r) in s.found
    ensures LeavesRunning(s, id, name)
  {
    var l := WatchFail(pid, r, "late");
    WatchdogRecovers(s, id, pid, "late");
    LeavesNow(Apply(s, l), id, name);
    LeavesNext(s, l, id, name);
  }

  /** reads it once it is old enough, */
  lemma OldIsRead(s: Sys, id: nat, name: string, r: Task, pid: nat, timeout: int)
    requires Adrift(s, id, name, r) && pid in s.procs && s.procs[pid].serving && r.startedAt.value < s.clock - timeout
    ensures LeavesRunning(s, id, name)
  {
    var l := Find(pid, timeout);
    StepsAreStatements(s, l);
    SettledInvStep(s, l);
    assert r in StaleTasks(s.db.tasks, s.clock - timeout);
    assert (pid, r) in FoundAfter(s, l);
    ReadIsFailed(Apply(s, l), id, name, r, pid);
    LeavesNext(s, l, id, name);
  }

  /** and it grows old enough, for any timeout. */
  lemma BegunIsRescued(s: Sys, id: nat, name: string, r: Task, pid: nat, timeout: int)
    requires Adrift(s, id, name, r) && pid in s.procs && s.procs[pid].serving
    ensures LeavesRunning(s, id, name)
  {
    var late := r.startedAt.value + timeout + 1;
    var now := if s.clock <= late then late else s.clock;
    WaitStep(s, now);
    SettledInvStep(s, Tick(now));
    OldIsRead(Apply(s, Tick(now)), id, name, r, pid, timeout);
    LeavesNext(s, Tick(now), id, name);
  }

  /** If no process is left to look for it, one can be started. */
  lemma SomebodyRescues(s: Sys, id: nat, name: string, r: Task)
    requires Adrift(s, id, name, r)
    ensures LeavesRunning(s, id, name)
  {
    var l := Newcomer(s);
    SettledInvStep(s, l);
    BegunIsRescued(Apply(s, l), id, name, r, l.pid, 0);
    LeavesNext(s, l, id, name);
  }

  /** Without its client and without its instance, an orphan can leave the running state if and only if
      a worker had begun with it. */
  lemma RescuedIffBegun(s: Sys, id: nat, name: string)
    requires SettledInv(s) && FoundStarted(s.found) && id in s.db.tasks && IsOrphanOf(s.db.tasks[id], name) && !Held(s, id)
    ensures LeavesRunning(s, id, name) <==> s.db.tasks[id].startedAt.Some?
  {
    if s.db.tasks[id].startedAt.Some? {
      SomebodyRescues(s, id, name, s.db.tasks[id]);
    } else {
      forall ls, s' | PathUnrescued(s, ls, s', id, name) ensures id in s'.db.tasks && s'.db.tasks[id].status == Running {
        StrandedAlong(s, ls, s', id, name);
      }
    }
  }
}
