/** Exactly when two workers can come to hold one task. A state excludes it when no task is held twice
    and none that is held is back in the queue, where somebody else could claim it. Only two hazards end
    that: a watchdog sending a held task back for a retry, and a recovery requeueing one. */
module Exclusion {
  import opened Tasks
  import opened Protocol
  import opened Unconditional
  import opened Coherence
  import opened Settled
  import opened Outcomes

  /** The task of this claim has been handed out, and has not been reported on. */
  predicate IsHolding(claims: map<nat, Claim>, k: nat) {
    k in claims && !claims[k].stage.Locked?
  }

  ghost predicate NoneQueued(tasks: map<nat, Task>, claims: map<nat, Claim>) {
    forall k | IsHolding(claims, k) && claims[k].snap.id in tasks :: tasks[claims[k].snap.id].status != Pending
  }

  ghost predicate Mutex(s: Sys) {
    HeldOnce(s.claims) && NoneQueued(s.db.tasks, s.claims)
  }

  /** What can be seen of the step beforehand: it would put a task that is being held back in the
      queue. */
  ghost predicate Hazard(s: Sys, l: Label) {
    exists k :: IsHolding(s.claims, k) && HazardTo(s, l, k)
  }

  predicate HazardTo(s: Sys, l: Label, k: nat)
    requires k in s.claims
  {
    var id := s.claims[k].snap.id;
    || (l.WatchFail? && l.snap.id == id && HasRetriesLeft(l.snap))
    || (l.Spawn? && l.recovered && id in s.db.tasks && IsOrphanOf(s.db.tasks[id], l.name))
  }

  // ---------------------------------------------------------------- one step

  lemma LockedIsFree(s: Sys, l: Label, k: nat)
    requires Base(s) && Mutex(s) && Enabled(s, l) && l.LockRow? && k in s.claims
    ensures s.claims[k].snap.id != l.id
  {
    assert s.claims[k].stage.Locked? ==> s.claims[k].snap.id in LockedIds(s);
    assert IsHolding(s.claims, k) || s.claims[k].stage.Locked?;
  }

  lemma StillHeldOnce(s: Sys, l: Label)
    requires Base(s) && Mutex(s) && Enabled(s, l)
    ensures HeldOnce(ClaimsAfter(s, l))
  {
    var claims' := ClaimsAfter(s, l);
    forall j, k | j in claims' && k in claims' && claims'[j].snap.id == claims'[k].snap.id ensures j == k {
      ClaimOrigin(s, l, j);
      ClaimOrigin(s, l, k);
      if l.LockRow? {
        assert RowOk(l.id, s.db.tasks[l.id]);
        if j in s.claims { LockedIsFree(s, l, j); }
        if k in s.claims { LockedIsFree(s, l, k); }
      }
    }
  }

  /** How a row gets back into the queue. */
  lemma BackInQueue(r: Task, w: Write)
    requires Do(r, w).status == Pending && r.status != Pending
    ensures w.Requeue? || (w.FailAs? && HasRetriesLeft(w.snap))
  {
  }

  /** A holder's own report ends its holding. */
  lemma ReportEnds(s: Sys, l: Label, k: nat)
    requires HeldOnce(s.claims) && Enabled(s, l) && l.Fail? && k in s.claims && s.claims[l.k].snap.id == s.claims[k].snap.id
    ensures k !in ClaimsAfter(s, l)
  {
  }

  lemma HolderStaysOut(s: Sys, l: Label, k: nat)
    requires Base(s) && Mutex(s) && Enabled(s, l) && !Hazard(s, l) && IsHolding(s.claims, k) && k in ClaimsAfter(s, l)
    ensures var id := s.claims[k].snap.id; id in s.db.tasks && RowAfter(s.db.tasks[id], s, l).status != Pending
  {
    var id := s.claims[k].snap.id;
    assert SnapOk(s.db.tasks, s.claims[k].snap) && RowOk(id, s.db.tasks[id]);
    assert !HazardTo(s, l, k);
    if RowAfter(s.db.tasks[id], s, l).status == Pending {
      BackInQueue(s.db.tasks[id], WriteTo(s, l, s.db.tasks[id]));
      if l.Fail? { ReportEnds(s, l, k); }
    }
  }

  lemma NewHolderIsOut(s: Sys, l: Label)
    requires Base(s) && Enabled(s, l) && l.Commit?
    ensures var id := s.claims[l.k].snap.id; id in s.db.tasks && RowAfter(s.db.tasks[id], s, l).status == Running
  {
    assert IsLock(s.claims, l.k);
  }

  lemma StillNoneQueued(s: Sys, l: Label)
    requires Base(s) && Mutex(s) && Enabled(s, l) && !Hazard(s, l)
    ensures NoneQueued(RowWrites(s.db.tasks, s, l), ClaimsAfter(s, l))
  {
    var tasks', claims' := RowWrites(s.db.tasks, s, l), ClaimsAfter(s, l);
    forall k | IsHolding(claims', k) && claims'[k].snap.id in tasks' ensures tasks'[claims'[k].snap.id].status != Pending {
      ClaimOrigin(s, l, k);
      if s.claims[k].stage.Locked? {
        NewHolderIsOut(s, l);
      } else {
        HolderStaysOut(s, l, k);
      }
      RowKept(s, l, claims'[k].snap.id);
    }
  }

  lemma HazardWrites(s: Sys, l: Label, k: nat)
    requires Base(s) && Enabled(s, l) && IsHolding(s.claims, k) && HazardTo(s, l, k)
    ensures var id := s.claims[k].snap.id; id in s.db.tasks && Do(s.db.tasks[id], WriteTo(s, l, s.db.tasks[id])).status == Pending
  {
    var id := s.claims[k].snap.id;
    assert SnapOk(s.db.tasks, s.claims[k].snap) && RowOk(id, s.db.tasks[id]);
  }

  lemma HazardLeavesClaims(s: Sys, l: Label, k: nat)
    requires Enabled(s, l) && k in s.claims && HazardTo(s, l, k)
    ensures ClaimsAfter(s, l) == s.claims
  {
  }

  lemma HazardQueues(s: Sys, l: Label)
    requires Base(s) && Enabled(s, l) && Hazard(s, l)
    ensures !NoneQueued(RowWrites(s.db.tasks, s, l), ClaimsAfter(s, l))
  {
    var k :| IsHolding(s.claims, k) && HazardTo(s, l, k);
    HazardWrites(s, l, k);
    HazardLeavesClaims(s, l, k);
    RowKept(s, l, s.claims[k].snap.id);
  }

  /** From a state of mutual exclusion, a step leads to another if and only if it is no hazard. */
  lemma MutexIffNoHazard(s: Sys, l: Label)
    requires Base(s) && Mutex(s) && Enabled(s, l)
    ensures Mutex(Apply(s, l)) <==> !Hazard(s, l)
  {
    if Hazard(s, l) {
      HazardQueues(s, l);
    } else {
      StillHeldOnce(s, l);
      StillNoneQueued(s, l);
    }
  }

  // ---------------------------------------------------------------- whole runs

  ghost predicate AllMutex(states: seq<Sys>) {
    forall i | 0 <= i < |states| :: Mutex(states[i])
  }

  ghost predicate NoHazards(states: seq<Sys>, labels: seq<Label>)
    requires |states| == |labels| + 1
  {
    forall i {:trigger labels[i]} | 0 <= i < |labels| :: !Hazard(states[i], labels[i])
  }

  lemma StepAt(states: seq<Sys>, labels: seq<Label>, i: nat)
    requires Run(states, labels) && i < |labels|
    ensures Base(states[i]) && Steps(states[i], labels[i], states[i + 1])
  {
    BaseRun(states, labels, i);
  }

  lemma {:induction false} MutexPrefix(states: seq<Sys>, labels: seq<Label>, n: nat)
    requires Run(states, labels) && n < |states| && NoHazards(states, labels)
    ensures Mutex(states[n])
  {
    if n > 0 {
      MutexPrefix(states, labels, n - 1);
      NoHazardAt(states, labels, n - 1);
      MutexNext(states[n - 1], labels[n - 1], states[n - 1 + 1]);
    }
  }

  lemma NoHazardAt(states: seq<Sys>, labels: seq<Label>, i: nat)
    requires Run(states, labels) && NoHazards(states, labels) && i < |labels|
    ensures Base(states[i]) && Steps(states[i], labels[i], states[i + 1]) && !Hazard(states[i], labels[i])
  {
    StepAt(states, labels, i);
  }

  lemma MutexNext(s: Sys, l: Label, s': Sys)
    requires Base(s) && Mutex(s) && Steps(s, l, s') && !Hazard(s, l)
    ensures Mutex(s')
  {
    MutexIffNoHazard(s, l);
  }

  /** A run excludes double holding throughout if and only if it meets no hazard. */
  lemma MutualExclusion(states: seq<Sys>, labels: seq<Label>)
    requires Run(states, labels)
    ensures AllMutex(states) <==> NoHazards(states, labels)
    ensures NoHazards(states, labels) ==> forall i | 0 <= i < |states| :: HeldOnce(states[i].claims)
  {
    if NoHazards(states, labels) {
      forall i | 0 <= i < |states| ensures Mutex(states[i]) {
        MutexPrefix(states, labels, i);
      }
    }
    if AllMutex(states) {
      forall i | 0 <= i < |labels| ensures !Hazard(states[i], labels[i]) {
        StepAt(states, labels, i);
        assert Mutex(states[i]) && Mutex(states[i + 1]);
        MutexIffNoHazard(states[i], labels[i]);
      }
    }
  }

  // ---------------------------------------------------------------- a hazard is one

  function Waiting(s: Sys, client: string): set<nat> {
    set i | i in s.db.tasks && Claimable(s.db.tasks, LockedIds(s), client, i)
  }

  /** The task of claim k is held, and free to be claimed by pid. */
  ghost predicate Exposed(s: Sys, k: nat, pid: nat) {
    && Base(s) && IsHolding(s.claims, k) && pid in s.procs && s.procs[pid].serving
    && s.claims[k].snap.id in Waiting(s, s.claims[k].snap.client)
  }

  ghost predicate HeldTwice(s: Sys) {
    !HeldOnce(s.claims)
  }

  /** A client may cancel a better task, which changes nothing for this one. */
  lemma CancelBetter(s: Sys, k: nat, pid: nat, b: nat)
    requires Exposed(s, k, pid) && b in Waiting(s, s.claims[k].snap.client) && b != s.claims[k].snap.id
    ensures var l := Cancel(s.claims[k].snap.client, b);
            && Enabled(s, l) && SettledStep(s, l) && Exposed(Apply(s, l), k, pid)
            && Apply(s, l).claims == s.claims
            && |Waiting(Apply(s, l), s.claims[k].snap.client)| < |Waiting(s, s.claims[k].snap.client)|
  {
    var client := s.claims[k].snap.client;
    var l := Cancel(client, b);
    assert Enabled(s, l);
    BaseStep(s, l);
    CancelShrinks(s, client, b);
  }

  lemma CancelShrinks(s: Sys, client: string, b: nat)
    requires Base(s) && b in Waiting(s, client)
    ensures Enabled(s, Cancel(client, b)) && Waiting(Apply(s, Cancel(client, b)), client) == Waiting(s, client) - {b}
    ensures |Waiting(s, client) - {b}| < |Waiting(s, client)|
  {
    var l := Cancel(client, b);
    var s' := Apply(s, l);
    assert LockedIds(s') == LockedIds(s);
    forall i ensures i in Waiting(s', client) <==> i in Waiting(s, client) - {b} {
      if i in s.db.tasks {
        RowKept(s, l, i);
        assert RowOk(i, s.db.tasks[i]);
      }
    }
  }

  lemma ClaimExposed(s: Sys, k: nat, pid: nat)
    requires Exposed(s, k, pid)
    requires Best(s.db.tasks, LockedIds(s), s.db.tasks[s.claims[k].snap.id].client, s.claims[k].snap.id)
    ensures var l := LockRow(pid, s.claims[k].snap.id); Enabled(s, l) && SettledStep(s, l) && HeldTwice(Apply(s, l))
  {
    var l := LockRow(pid, s.claims[k].snap.id);
    assert RowOk(l.id, s.db.tasks[l.id]);
    assert k < s.nextClaim;
    var claims' := ClaimsAfter(s, l);
    assert k in claims' && s.nextClaim in claims' && claims'[k].snap.id == claims'[s.nextClaim].snap.id;
  }

  /** A task that is back in the queue while it is held can be held twice a few ordinary steps later:
      no further fault is needed. */
  lemma {:induction false} ExposedCanBeHeldTwice(s: Sys, k: nat, pid: nat) returns (s': Sys)
    requires Exposed(s, k, pid)
    ensures CanReach(s, s') && HeldTwice(s')
    decreases |Waiting(s, s.claims[k].snap.client)|
  {
    var id, client := s.claims[k].snap.id, s.claims[k].snap.client;
    BestExists(s.db.tasks, LockedIds(s), client);
    assert Claimable(s.db.tasks, LockedIds(s), client, id);
    var b :| Best(s.db.tasks, LockedIds(s), client, b);
    if b == id {
      ClaimExposed(s, k, pid);
      s' := Apply(s, LockRow(pid, id));
      ReachSelf(s');
      ReachCons(s, LockRow(pid, id), s');
    } else {
      assert b in Waiting(s, client);
      CancelBetter(s, k, pid, b);
      s' := ExposedCanBeHeldTwice(Apply(s, Cancel(client, b)), k, pid);
      ReachCons(s, Cancel(client, b), s');
    }
  }

  lemma ServedToo(s: Sys, k: nat) returns (s': Sys)
    requires Base(s) && IsHolding(s.claims, k) && s.claims[k].snap.id in Waiting(s, s.claims[k].snap.client)
    ensures CanReach(s, s') && HeldTwice(s')
  {
    var l := Newcomer(s);
    var t := Apply(s, l);
    BaseStep(s, l);
    assert LockedIds(t) == LockedIds(s);
    assert Exposed(t, k, l.pid);
    s' := ExposedCanBeHeldTwice(t, k, l.pid);
    ReachCons(s, l, s');
  }

  /** So a state in which no task is held twice, but which does not exclude it, can always lead to one
      in which one is: if nobody serves the queue, somebody can be started. */
  lemma NoMutexNoSafety(s: Sys) returns (s': Sys)
    requires Base(s) && HeldOnce(s.claims) && !Mutex(s)
    ensures CanReach(s, s') && HeldTwice(s')
  {
    var k :| IsHolding(s.claims, k) && s.claims[k].snap.id in s.db.tasks && s.db.tasks[s.claims[k].snap.id].status == Pending;
    assert SnapOk(s.db.tasks, s.claims[k].snap) && RowOk(s.claims[k].snap.id, s.db.tasks[s.claims[k].snap.id]);
    assert s.claims[k].snap.id !in LockedIds(s);
    s' := ServedToo(s, k);
  }
}
