/** What stale holders can still do. Take any state that any interleaving can lead to, and let the system
    be settled from then on: no watchdog in a hurry any more, no name used twice. Which holders must be
    left over for a retry counter to go back after all, or for a second dead letter to be filed? */
module Aftermath {
  import opened Tasks
  import opened Protocol
  import opened Unconditional
  import opened Coherence
  import opened Settled
  import opened Outcomes
  import opened Exclusion
  import opened Drift

  predicate Holds(s: Sys, k: nat, id: nat) {
    IsHolding(s.claims, k) && s.claims[k].snap.id == id
  }

  predicate CanRetry(s: Sys, k: nat, id: nat) {
    Holds(s, k, id) && HasRetriesLeft(s.claims[k].snap)
  }

  /** The task can be back in the queue while this claim holds on to it: it is there, or it runs in the
      name of another instance, which may be started again. */
  predicate Loose(s: Sys, k: nat, id: nat)
    requires Holds(s, k, id)
  {
    && id in s.db.tasks
    && var r := s.db.tasks[id];
    || r.status == Pending
    || (r.status == Running && s.claims[k].pid in s.procs && r.processedBy != Some(s.procs[s.claims[k].pid].name))
  }

  /** A holder that may still record a retry, and that the counter has left behind or can leave behind. */
  ghost predicate CounterAtRisk(s: Sys, id: nat) {
    && id in s.db.tasks
    && exists k :: CanRetry(s, k, id) && RiskOf(s, k, id)
  }

  ghost predicate RiskOf(s: Sys, k: nat, id: nat)
    requires id in s.db.tasks && CanRetry(s, k, id)
  {
    var r, count := s.db.tasks[id], s.claims[k].snap.retryCount;
    || count + 2 <= r.retryCount
    || (count + 2 <= r.maxRetries && exists j :: j != k && CanRetry(s, j, id))
    || (Loose(s, k, id) && (count + 2 <= r.maxRetries || r.retryCount + 2 <= r.maxRetries))
  }

  /** A task that has its dead letter and is not at rest; or one that two can come to hold. */
  ghost predicate LetterAtRisk(s: Sys, id: nat) {
    && id in s.db.tasks
    && if DeadCount(s.db.dead, id) >= 1 then s.db.tasks[id].status in {Pending, Running} || exists k :: Holds(s, k, id)
       else exists k :: Holds(s, k, id) && (Loose(s, k, id) || exists j :: j != k && Holds(s, j, id))
  }

  ghost predicate CounterCanGoBack(s: Sys, id: nat) {
    exists t, l :: CanReach(s, t) && Enabled(t, l) && SettledStep(t, l) && StaleRetry(t, l, id)
  }

  ghost predicate LetterCanFollow(s: Sys, id: nat) {
    exists t, l :: CanReach(s, t) && Enabled(t, l) && SettledStep(t, l) && LateLetter(t, l, id)
  }

  // ---------------------------------------------------------------- risks do not come from nowhere

  /** A holder after the step was one before, or has just been handed the task. */
  lemma HolderOrigin(s: Sys, l: Label, k: nat, id: nat)
    requires Base(s) && Enabled(s, l) && Holds(Apply(s, l), k, id)
    ensures l == Commit(k) || Holds(s, k, id)
    ensures k in s.claims && s.claims[k].snap.id == id && id in s.db.tasks && s.claims[k].pid in s.procs
    ensures Apply(s, l).claims[k].snap.retryCount == s.claims[k].snap.retryCount
    ensures Apply(s, l).claims[k].snap.maxRetries == s.claims[k].snap.maxRetries == s.db.tasks[id].maxRetries
    ensures l == Commit(k) ==> s.claims[k].snap == s.db.tasks[id] && s.db.tasks[id].status == Pending
  {
    ClaimOrigin(s, l, k);
    assert SnapOk(s.db.tasks, s.claims[k].snap);
    assert s.claims[k].stage.Locked? ==> IsLock(s.claims, k);
  }

  lemma RetrierOrigin(s: Sys, l: Label, k: nat, id: nat)
    requires Base(s) && Enabled(s, l) && CanRetry(Apply(s, l), k, id)
    ensures if l == Commit(k) then id in s.db.tasks && Apply(s, l).claims[k].snap.retryCount == s.db.tasks[id].retryCount
            else CanRetry(s, k, id) && Apply(s, l).claims[k].snap.retryCount == s.claims[k].snap.retryCount
  {
    HolderOrigin(s, l, k, id);
  }

  lemma NameStays(s: Sys, l: Label, k: nat)
    requires Base(s) && Enabled(s, l) && k in s.claims && k in ClaimsAfter(s, l)
    ensures ClaimsAfter(s, l)[k].pid == s.claims[k].pid
    ensures s.claims[k].pid in ProcsAfter(s, l) && ProcsAfter(s, l)[s.claims[k].pid].name == s.procs[s.claims[k].pid].name
  {
    assert k < s.nextClaim;
    ClaimOrigin(s, l, k);
    ProcKept(s, l, k);
  }

  predicate LooseFrom(r: Task, name: string) {
    r.status == Pending || (r.status == Running && r.processedBy != Some(name))
  }

  lemma LoosenedBy(s: Sys, l: Label, k: nat, id: nat)
    requires Base(s) && Enabled(s, l) && SettledStep(s, l) && id in s.db.tasks
    requires k in s.claims && s.claims[k].snap.id == id && s.claims[k].pid in s.procs
    requires LooseFrom(Do(s.db.tasks[id], WriteTo(s, l, s.db.tasks[id])), s.procs[s.claims[k].pid].name)
    ensures l != Commit(k) && (LooseFrom(s.db.tasks[id], s.procs[s.claims[k].pid].name) || (l.Fail? && CanRetry(s, l.k, id)))
  {
    assert RowOk(id, s.db.tasks[id]);
    assert Held(s, id);
    if l.Commit? { assert AtStage(s, l.k, Locked) && IsLock(s.claims, l.k); }
  }

  /** A row gets loose by a failure, a recovery, or not at all. */
  lemma LooseOrigin(s: Sys, l: Label, k: nat, id: nat)
    requires Base(s) && Enabled(s, l) && SettledStep(s, l) && Holds(Apply(s, l), k, id) && Loose(Apply(s, l), k, id)
    ensures l != Commit(k) && Holds(s, k, id) && (Loose(s, k, id) || (l.Fail? && CanRetry(s, l.k, id) && l.k != k))
  {
    HolderOrigin(s, l, k, id);
    NameStays(s, l, k);
    RowKept(s, l, id);
    LoosenedBy(s, l, k, id);
  }

  /** What a step can do to a counter that somebody may still take back. */
  lemma CounterOf(s: Sys, l: Label, id: nat)
    requires Base(s) && Enabled(s, l) && SettledStep(s, l) && id in s.db.tasks && Held(s, id)
    ensures var r, r' := s.db.tasks[id], RowAfter(s.db.tasks[id], s, l);
            && r'.maxRetries == r.maxRetries
            && if l.Fail? && CanRetry(s, l.k, id) then r'.retryCount == s.claims[l.k].snap.retryCount + 1 && r'.status == Pending
               else r'.retryCount == r.retryCount
  {
    assert RowOk(id, s.db.tasks[id]);
  }

  ghost predicate RiskAfter(s: Sys, l: Label, k: nat, id: nat)
    requires Enabled(s, l)
  {
    var s' := Apply(s, l);
    Base(s) && SettledStep(s, l) && id in s.db.tasks && id in s'.db.tasks && CanRetry(s', k, id) && RiskOf(s', k, id)
  }

  /** The row after the step, seen through the state after it. */
  lemma RowThere(s: Sys, l: Label, k: nat, id: nat)
    requires Enabled(s, l) && RiskAfter(s, l, k, id)
    ensures var r, r' := s.db.tasks[id], Apply(s, l).db.tasks[id];
            && r'.maxRetries == r.maxRetries
            && if l.Fail? && CanRetry(s, l.k, id) then r'.retryCount == s.claims[l.k].snap.retryCount + 1 && r'.status == Pending
               else r'.retryCount == r.retryCount
  {
    HolderOrigin(s, l, k, id);
    assert Held(s, id);
    RowKept(s, l, id);
    CounterOf(s, l, id);
  }

  /** Somebody has recorded a retry: there were two that could. */
  lemma RiskByFailure(s: Sys, l: Label, k: nat, id: nat)
    requires Enabled(s, l) && RiskAfter(s, l, k, id) && l.Fail? && CanRetry(s, l.k, id)
    ensures CounterAtRisk(s, id)
  {
    RetrierOrigin(s, l, k, id);
    RowThere(s, l, k, id);
    assert k != l.k;
    assert SnapOk(s.db.tasks, s.claims[l.k].snap);
    if s.claims[k].snap.retryCount + 2 <= s.db.tasks[id].maxRetries {
      assert RiskOf(s, k, id);
    } else {
      assert RiskOf(s, l.k, id);
    }
  }

  /** Somebody has been handed the task: it was loose, and somebody else had it. */
  lemma RiskByHanding(s: Sys, l: Label, k: nat, id: nat)
    requires Enabled(s, l) && RiskAfter(s, l, k, id) && l == Commit(k)
    ensures CounterAtRisk(s, id)
  {
    HolderOrigin(s, l, k, id);
    RowThere(s, l, k, id);
    if Loose(Apply(s, l), k, id) { LooseOrigin(s, l, k, id); }
    var j :| j != k && CanRetry(Apply(s, l), j, id);
    RetrierOrigin(s, l, j, id);
    assert RiskOf(s, j, id);
  }

  lemma RiskKept(s: Sys, l: Label, k: nat, id: nat)
    requires Enabled(s, l) && RiskAfter(s, l, k, id) && l != Commit(k) && !(l.Fail? && CanRetry(s, l.k, id))
    ensures CounterAtRisk(s, id)
  {
    RetrierOrigin(s, l, k, id);
    RowThere(s, l, k, id);
    if Loose(Apply(s, l), k, id) {
      LooseOrigin(s, l, k, id);
    } else if j :| j != k && CanRetry(Apply(s, l), j, id) {
      RetrierOrigin(s, l, j, id);
      if l == Commit(j) { HolderOrigin(s, l, j, id); }
    }
    assert RiskOf(s, k, id);
  }

  /** A counter at risk after a settled step was at risk before it. */
  lemma CounterRiskIsOld(s: Sys, l: Label, id: nat)
    requires Base(s) && Enabled(s, l) && SettledStep(s, l) && CounterAtRisk(Apply(s, l), id)
    ensures CounterAtRisk(s, id)
  {
    var k :| CanRetry(Apply(s, l), k, id) && RiskOf(Apply(s, l), k, id);
    HolderOrigin(s, l, k, id);
    if l.Fail? && CanRetry(s, l.k, id) {
      RiskByFailure(s, l, k, id);
    } else if l == Commit(k) {
      RiskByHanding(s, l, k, id);
    } else {
      RiskKept(s, l, k, id);
    }
  }

  /** And to take a counter back is to have been at risk. */
  lemma StaleRetryIsRisk(s: Sys, l: Label, id: nat)
    requires Base(s) && Enabled(s, l) && SettledStep(s, l) && StaleRetry(s, l, id)
    ensures CounterAtRisk(s, id)
  {
    assert l.Fail?;
    assert CanRetry(s, l.k, id) && RiskOf(s, l.k, id);
  }

  lemma {:induction false} NoRiskAlong(s: Sys, ls: seq<Label>, t: Sys, id: nat)
    requires Base(s) && Path(s, ls, t) && CounterAtRisk(t, id)
    ensures CounterAtRisk(s, id)
    decreases |ls|
  {
    if ls != [] {
      BaseStep(s, ls[0]);
      NoRiskAlong(Apply(s, ls[0]), ls[1..], t, id);
      CounterRiskIsOld(s, ls[0], id);
    }
  }

  // ---------------------------------------------------------------- nor do second letters

  lemma LettersOfUnknown(s: Sys, id: nat)
    requires Base(s) && id !in s.db.tasks
    ensures DeadCount(s.db.dead, id) == 0
  {
    forall i | 0 <= i < |s.db.dead| ensures s.db.dead[i].taskId in s.db.tasks {
      assert LetterOk(s.db.tasks, s.db.dead[i]);
    }
    NoLetters(s.db.tasks, s.db.dead, id);
  }

  lemma NewTaskHasNoLetter(s: Sys, l: Label, id: nat)
    requires Base(s) && Enabled(s, l) && id !in s.db.tasks
    ensures DeadCount(DeadWrites(s, l), id) == 0
  {
    LettersOfUnknown(s, id);
    LettersAre(s, l, id);
    if l.Fail? || l.WatchFail? { FailingOk(s, l); }
  }

  lemma NewTaskHasNoRisk(s: Sys, l: Label, id: nat)
    requires Base(s) && Enabled(s, l) && id !in s.db.tasks
    ensures !LetterAtRisk(Apply(s, l), id)
  {
    NewTaskHasNoLetter(s, l, id);
    forall k | Holds(Apply(s, l), k, id) ensures false {
      HolderOrigin(s, l, k, id);
    }
  }

  ghost predicate AtWork(s: Sys, id: nat) {
    id in s.db.tasks && (s.db.tasks[id].status in {Pending, Running} || exists k :: Holds(s, k, id))
  }

  lemma QueuedOrRunning(s: Sys, l: Label, id: nat)
    requires Base(s) && Enabled(s, l) && SettledStep(s, l) && id in s.db.tasks
    requires Do(s.db.tasks[id], WriteTo(s, l, s.db.tasks[id])).status in {Pending, Running}
    ensures AtWork(s, id)
  {
    if l.Fail? && s.claims[l.k].snap.id == id {
      assert Holds(s, l.k, id);
    } else if l.Commit? && s.claims[l.k].snap.id == id {
      assert IsLock(s.claims, l.k);
    } else {
      assert RowOk(id, s.db.tasks[id]);
      assert s.db.tasks[id].status in {Pending, Running};
    }
  }

  /** A settled step brings nothing back that is at rest. */
  lemma RestStays(s: Sys, l: Label, id: nat)
    requires Base(s) && Enabled(s, l) && SettledStep(s, l) && id in s.db.tasks && AtWork(Apply(s, l), id)
    ensures AtWork(s, id)
  {
    if k :| Holds(Apply(s, l), k, id) {
      HolderOrigin(s, l, k, id);
    } else {
      RowKept(s, l, id);
      QueuedOrRunning(s, l, id);
    }
  }

  lemma FiledByHolder(s: Sys, l: Label, k: nat, id: nat)
    requires Base(s) && Enabled(s, l) && SettledStep(s, l) && id in s.db.tasks && Fails(s, l, id) && Holds(Apply(s, l), k, id)
    ensures l.Fail? && Holds(s, l.k, id) && Holds(s, k, id) && k != l.k
  {
    HolderOrigin(s, l, k, id);
    assert Held(s, id);
  }

  lemma FailedNow(s: Sys, l: Label, id: nat)
    requires RowsOk(s.db.tasks, s.db.nextId) && Enabled(s, l) && id in s.db.tasks && Fails(s, l, id) && !HasRetriesLeft(Failing(s, l))
    ensures id in RowWrites(s.db.tasks, s, l) && RowWrites(s.db.tasks, s, l)[id].status == Failed
  {
    RowKept(s, l, id);
    assert RowOk(id, s.db.tasks[id]);
    FailsAs(s, l, s.db.tasks[id]);
  }

  lemma FiledIsFailed(s: Sys, l: Label, id: nat)
    requires Base(s) && Enabled(s, l) && id in s.db.tasks && DeadCount(s.db.dead, id) == 0 && DeadCount(DeadWrites(s, l), id) >= 1
    ensures Fails(s, l, id) && id in RowWrites(s.db.tasks, s, l) && RowWrites(s.db.tasks, s, l)[id].status == Failed
  {
    LettersAre(s, l, id);
    FailedNow(s, l, id);
  }

  lemma FirstLetterRisk(s: Sys, l: Label, id: nat)
    requires Base(s) && Enabled(s, l) && SettledStep(s, l) && id in s.db.tasks
    requires DeadCount(s.db.dead, id) == 0 && DeadCount(DeadWrites(s, l), id) >= 1 && AtWork(Apply(s, l), id)
    ensures LetterAtRisk(s, id)
  {
    FiledIsFailed(s, l, id);
    var k :| Holds(Apply(s, l), k, id);
    FiledByHolder(s, l, k, id);
  }

  lemma TwoHoldersRisk(s: Sys, l: Label, k: nat, id: nat)
    requires Base(s) && Enabled(s, l) && SettledStep(s, l) && id in s.db.tasks && DeadCount(s.db.dead, id) == 0
    requires Holds(Apply(s, l), k, id) && (Loose(Apply(s, l), k, id) || exists j :: j != k && Holds(Apply(s, l), j, id))
    ensures LetterAtRisk(s, id)
  {
    HolderOrigin(s, l, k, id);
    if Loose(Apply(s, l), k, id) {
      LooseOrigin(s, l, k, id);
      assert Loose(s, k, id) || Holds(s, l.k, id);
    } else {
      var j :| j != k && Holds(Apply(s, l), j, id);
      HolderOrigin(s, l, j, id);
      if l == Commit(k) {
        assert Holds(s, j, id) && Loose(s, j, id);
      } else {
        assert Holds(s, k, id) && (l == Commit(j) ==> Loose(s, k, id));
      }
    }
  }

  lemma LetterRiskIsOld(s: Sys, l: Label, id: nat)
    requires Base(s) && Enabled(s, l) && SettledStep(s, l) && LetterAtRisk(Apply(s, l), id)
    ensures LetterAtRisk(s, id)
  {
    if id !in s.db.tasks {
      NewTaskHasNoRisk(s, l, id);
    } else if DeadCount(s.db.dead, id) >= 1 {
      LettersAre(s, l, id);
      RestStays(s, l, id);
    } else if DeadCount(DeadWrites(s, l), id) >= 1 {
      FirstLetterRisk(s, l, id);
    } else {
      var k :| Holds(Apply(s, l), k, id) && (Loose(Apply(s, l), k, id) || exists j :: j != k && Holds(Apply(s, l), j, id));
      TwoHoldersRisk(s, l, k, id);
    }
  }

  lemma LateLetterIsRisk(s: Sys, l: Label, id: nat)
    requires Base(s) && Enabled(s, l) && SettledStep(s, l) && LateLetter(s, l, id)
    ensures LetterAtRisk(s, id)
  {
    FailingOk(s, l);
    if l.Fail? { assert Holds(s, l.k, id); }
  }

  lemma {:induction false} NoLetterRiskAlong(s: Sys, ls: seq<Label>, t: Sys, id: nat)
    requires Base(s) && Path(s, ls, t) && LetterAtRisk(t, id)
    ensures LetterAtRisk(s, id)
    decreases |ls|
  {
    if ls != [] {
      BaseStep(s, ls[0]);
      NoLetterRiskAlong(Apply(s, ls[0]), ls[1..], t, id);
      LetterRiskIsOld(s, ls[0], id);
    }
  }

  lemma {:induction false} BaseAlong(s: Sys, ls: seq<Label>, t: Sys)
    requires Base(s) && Path(s, ls, t)
    ensures Base(t)
    decreases |ls|
  {
    if ls != [] {
      BaseStep(s, ls[0]);
      BaseAlong(Apply(s, ls[0]), ls[1..], t);
    }
  }

  // ---------------------------------------------------------------- getting there

  lemma {:induction false} ReachAlong(s: Sys, ls: seq<Label>, t: Sys, u: Sys)
    requires Path(s, ls, t) && CanReach(t, u)
    ensures CanReach(s, u)
    decreases |ls|
  {
    if ls != [] {
      ReachAlong(Apply(s, ls[0]), ls[1..], t, u);
      ReachCons(s, ls[0], u);
    }
  }

  lemma ReachJoin(s: Sys, t: Sys, u: Sys)
    requires CanReach(s, t) && CanReach(t, u)
    ensures CanReach(s, u)
  {
    var ls :| Path(s, ls, t);
    ReachAlong(s, ls, t, u);
  }

  lemma ReachOne(s: Sys, l: Label)
    requires Enabled(s, l) && SettledStep(s, l)
    ensures CanReach(s, Apply(s, l))
  {
    ReachSelf(Apply(s, l));
    ReachCons(s, l, Apply(s, l));
  }

  /** This holder goes on holding, with the same snapshot and for a process of the same name. */
  predicate Follows(s: Sys, t: Sys, k: nat) {
    && IsHolding(s.claims, k) && IsHolding(t.claims, k) && t.claims[k].snap == s.claims[k].snap
    && t.claims[k].pid == s.claims[k].pid && t.claims[k].pid in t.procs && s.claims[k].pid in s.procs
    && t.procs[t.claims[k].pid].name == s.procs[s.claims[k].pid].name
  }

  ghost predicate AllFollow(s: Sys, t: Sys) {
    forall k | IsHolding(s.claims, k) :: Follows(s, t, k)
  }

  /** Nothing has happened to the task, and all holders of anything are still there. */
  ghost predicate Quietly(s: Sys, t: Sys, id: nat) {
    && CanReach(s, t) && Base(t)
    && id in s.db.tasks && id in t.db.tasks && t.db.tasks[id] == s.db.tasks[id] && t.db.dead == s.db.dead
    && AllFollow(s, t)
  }

  lemma QuietJoin(s: Sys, t: Sys, u: Sys, id: nat)
    requires Quietly(s, t, id) && Quietly(t, u, id)
    ensures Quietly(s, u, id)
  {
    ReachJoin(s, t, u);
    forall k | IsHolding(s.claims, k) ensures Follows(s, u, k) {
      assert Follows(s, t, k) && Follows(t, u, k);
    }
  }

  lemma QuietSelf(s: Sys, id: nat)
    requires Base(s) && id in s.db.tasks
    ensures Quietly(s, s, id)
  {
    ReachSelf(s);
  }

  predicate EndsHolding(l: Label) {
    l.Complete? || l.Fail? || l.Drop? || l.Crash? || l.Exit?
  }

  lemma StaysHeld(s: Sys, l: Label, k: nat)
    requires Base(s) && Enabled(s, l) && !EndsHolding(l) && IsHolding(s.claims, k)
    ensures IsHolding(ClaimsAfter(s, l), k) && l != Commit(k) && !(l.LockRow? && k == s.nextClaim)
  {
    assert k < s.nextClaim;
  }

  lemma StillThere(s: Sys, l: Label, k: nat)
    requires Base(s) && Enabled(s, l) && !EndsHolding(l) && IsHolding(s.claims, k)
    ensures Follows(s, Apply(s, l), k)
  {
    StaysHeld(s, l, k);
    ProcKept(s, l, k);
    ClaimOrigin(s, l, k);
  }

  lemma AllStillThere(s: Sys, l: Label)
    requires Base(s) && Enabled(s, l) && !EndsHolding(l)
    ensures AllFollow(s, Apply(s, l))
  {
    forall k | IsHolding(s.claims, k) ensures Follows(s, Apply(s, l), k) {
      StillThere(s, l, k);
    }
  }

  lemma QuietStep(s: Sys, l: Label, id: nat)
    requires Base(s) && Enabled(s, l) && SettledStep(s, l) && id in s.db.tasks
    requires !EndsHolding(l) && !l.WatchFail? && WriteTo(s, l, s.db.tasks[id]) == Keep
    ensures Quietly(s, Apply(s, l), id)
  {
    BaseStep(s, l);
    ReachOne(s, l);
    RowKept(s, l, id);
    AllStillThere(s, l);
  }

  lemma RollsBack(s: Sys, k: nat, id: nat)
    requires Base(s) && IsLock(s.claims, k) && s.claims[k].snap.id == id
    ensures id in s.db.tasks && Enabled(s, Rollback(k)) && ClaimsAfter(s, Rollback(k)) == s.claims - {k}
    ensures WriteTo(s, Rollback(k), s.db.tasks[id]) == Keep && ProcsAfter(s, Rollback(k)) == s.procs
    ensures id !in LockedIn(s.claims - {k})
  {
    assert LockOk(s.db.tasks, s.claims[k].snap);
    assert forall j | IsLock(s.claims - {k}, j) :: IsLock(s.claims, j) && j != k;
  }

  /** An open transaction on the row is rolled back. */
  lemma FreeRow(s: Sys, id: nat) returns (t: Sys)
    requires Base(s) && id in s.db.tasks
    ensures Quietly(s, t, id) && id !in LockedIds(t) && t.procs == s.procs
    ensures forall k | IsHolding(s.claims, k) :: t.claims[k] == s.claims[k]
  {
    if id in LockedIds(s) {
      var k :| IsLock(s.claims, k) && s.claims[k].snap.id == id;
      RollsBack(s, k, id);
      QuietStep(s, Rollback(k), id);
      t := Apply(s, Rollback(k));
    } else {
      t := s;
      QuietSelf(s, id);
    }
  }

  /** The next thing that happens to a holder, when it cannot mark the start. */
  function Ahead(s: Sys, k: nat): Label
    requires IsHolding(s.claims, k)
  {
    match s.claims[k].stage
    case InHand => Submit(k)
    case Queued => Pickup(k)
    case _ => Start(k, false)
  }

  lemma AheadEnabled(s: Sys, k: nat, id: nat)
    requires Base(s) && Holds(s, k, id) && !s.claims[k].stage.Started? && id in s.db.tasks
    ensures var l := Ahead(s, k);
            && Enabled(s, l) && SettledStep(s, l) && !EndsHolding(l) && !l.WatchFail? && WriteTo(s, l, s.db.tasks[id]) == Keep
            && IsHolding(ClaimsAfter(s, l), k) && ClaimsAfter(s, l)[k].snap == s.claims[k].snap
            && StageRank(ClaimsAfter(s, l)[k].stage) < StageRank(s.claims[k].stage)
  {
  }

  lemma AheadStep(s: Sys, k: nat, id: nat)
    requires Base(s) && Holds(s, k, id) && !s.claims[k].stage.Started? && id in s.db.tasks
    ensures Enabled(s, Ahead(s, k)) && SettledStep(s, Ahead(s, k)) && Quietly(s, Apply(s, Ahead(s, k)), id)
    ensures var t := Apply(s, Ahead(s, k)); Holds(t, k, id) && StageRank(t.claims[k].stage) < StageRank(s.claims[k].stage)
  {
    AheadEnabled(s, k, id);
    QuietStep(s, Ahead(s, k), id);
  }

  lemma {:induction false} GetStarted(s: Sys, k: nat, id: nat) returns (t: Sys)
    requires Base(s) && Holds(s, k, id)
    ensures Quietly(s, t, id) && Holds(t, k, id) && t.claims[k].stage.Started?
    decreases if k in s.claims then StageRank(s.claims[k].stage) else 0
  {
    assert SnapOk(s.db.tasks, s.claims[k].snap);
    if s.claims[k].stage.Started? {
      t := s;
      QuietSelf(s, id);
    } else {
      AheadStep(s, k, id);
      var u := Apply(s, Ahead(s, k));
      t := GetStarted(u, k, id);
      QuietJoin(s, u, t, id);
    }
  }

  /** Whoever holds a task can get to the point of reporting a failure of it. */
  lemma GetsToReport(s: Sys, k: nat, id: nat) returns (t: Sys)
    requires Base(s) && Holds(s, k, id)
    ensures Quietly(s, t, id) && Holds(t, k, id) && t.claims[k].snap == s.claims[k].snap
    ensures forall err :: Enabled(t, Fail(k, err)) && SettledStep(t, Fail(k, err)) && Fails(t, Fail(k, err), id)
  {
    var u := GetStarted(s, k, id);
    t := FreeRow(u, id);
    QuietJoin(s, u, t, id);
    assert Follows(s, t, k);
    MayReport(t, k, id);
  }

  lemma MayReport(s: Sys, k: nat, id: nat)
    requires Base(s) && Holds(s, k, id) && s.claims[k].stage.Started? && id in s.db.tasks && id !in LockedIds(s)
    ensures forall err :: Enabled(s, Fail(k, err)) && SettledStep(s, Fail(k, err)) && Fails(s, Fail(k, err), id)
  {
  }

  /** What a report leaves: the task is queued again or has failed with a letter, and the other holders
      are still there. */
  ghost predicate Reported(s: Sys, t: Sys, k: nat, id: nat)
    requires k in s.claims && id in s.db.tasks
  {
    && CanReach(s, t) && Base(t) && id in t.db.tasks
    && var r, r' := s.db.tasks[id], t.db.tasks[id];
    && r'.maxRetries == r.maxRetries
    && (if HasRetriesLeft(s.claims[k].snap)
        then r'.status == Pending && r'.retryCount == s.claims[k].snap.retryCount + 1 && DeadCount(t.db.dead, id) == DeadCount(s.db.dead, id)
        else r'.status == Failed && DeadCount(t.db.dead, id) == DeadCount(s.db.dead, id) + 1)
    && forall j | IsHolding(s.claims, j) && j != k :: Follows(s, t, j)
  }

  lemma FailWrites(s: Sys, k: nat, id: nat, err: string)
    requires Base(s) && Holds(s, k, id) && id in s.db.tasks && Enabled(s, Fail(k, err))
    ensures var l := Fail(k, err);
            && id in RowWrites(s.db.tasks, s, l) && RowWrites(s.db.tasks, s, l)[id] == FailTask(s.db.tasks[id], s.claims[k].snap, err, s.clock)
            && DeadCount(DeadWrites(s, l), id) == DeadCount(s.db.dead, id) + (if HasRetriesLeft(s.claims[k].snap) then 0 else 1)
  {
    RowKept(s, Fail(k, err), id);
    assert RowOk(id, s.db.tasks[id]);
    LettersAre(s, Fail(k, err), id);
  }

  lemma OthersStay(s: Sys, k: nat, err: string, j: nat)
    requires Base(s) && Enabled(s, Fail(k, err)) && IsHolding(s.claims, j) && j != k
    ensures Follows(s, Apply(s, Fail(k, err)), j)
  {
  }

  lemma FailNow(s: Sys, k: nat, id: nat, err: string)
    requires Base(s) && Holds(s, k, id) && id in s.db.tasks && Enabled(s, Fail(k, err)) && SettledStep(s, Fail(k, err))
    ensures Reported(s, Apply(s, Fail(k, err)), k, id)
  {
    var t := Apply(s, Fail(k, err));
    BaseStep(s, Fail(k, err));
    ReachOne(s, Fail(k, err));
    FailWrites(s, k, id, err);
    forall j | IsHolding(s.claims, j) && j != k ensures Follows(s, t, j) {
      OthersStay(s, k, err, j);
    }
  }

  lemma ReportedLater(s: Sys, t: Sys, u: Sys, k: nat, id: nat)
    requires Quietly(s, t, id) && k in s.claims && k in t.claims && t.claims[k].snap == s.claims[k].snap && Reported(t, u, k, id)
    ensures Reported(s, u, k, id)
  {
    ReachJoin(s, t, u);
    forall j | IsHolding(s.claims, j) && j != k ensures Follows(s, u, j) {
      assert Follows(s, t, j) && Follows(t, u, j);
    }
  }

  lemma HolderReports(s: Sys, k: nat, id: nat) returns (t: Sys)
    requires Base(s) && Holds(s, k, id) && id in s.db.tasks
    ensures Reported(s, t, k, id)
  {
    var u := GetsToReport(s, k, id);
    t := Apply(u, Fail(k, ""));
    FailNow(u, k, id, "");
    ReportedLater(s, u, t, k, id);
  }

  // ---------------------------------------------------------------- being served again

  lemma CancelStep(s: Sys, id: nat, b: nat)
    requires Base(s) && id in s.db.tasks && b in Waiting(s, s.db.tasks[id].client) && b != id
    ensures var l := Cancel(s.db.tasks[id].client, b);
            && Enabled(s, l) && Quietly(s, Apply(s, l), id) && Apply(s, l).procs == s.procs
            && Waiting(Apply(s, l), s.db.tasks[id].client) == Waiting(s, s.db.tasks[id].client) - {b}
            && |Waiting(s, s.db.tasks[id].client) - {b}| < |Waiting(s, s.db.tasks[id].client)|
  {
    CancelShrinks(s, s.db.tasks[id].client, b);
    OthersKept(s, s.db.tasks[id].client, b, id);
    QuietStep(s, Cancel(s.db.tasks[id].client, b), id);
  }

  lemma OthersKept(s: Sys, client: string, b: nat, id: nat)
    requires RowsOk(s.db.tasks, s.db.nextId) && Enabled(s, Cancel(client, b)) && id in s.db.tasks && b != id
    ensures WriteTo(s, Cancel(client, b), s.db.tasks[id]) == Keep && ProcsAfter(s, Cancel(client, b)) == s.procs
  {
    assert RowOk(id, s.db.tasks[id]);
  }

  /** Clients may cancel what is better. */
  lemma {:induction false} ComesFirst(s: Sys, id: nat) returns (t: Sys)
    requires Base(s) && id in s.db.tasks && id in Waiting(s, s.db.tasks[id].client)
    ensures Quietly(s, t, id) && t.procs == s.procs && Best(t.db.tasks, LockedIds(t), s.db.tasks[id].client, id)
    decreases if id in s.db.tasks then |Waiting(s, s.db.tasks[id].client)| else 0
  {
    var client := s.db.tasks[id].client;
    BestExists(s.db.tasks, LockedIds(s), client);
    assert Claimable(s.db.tasks, LockedIds(s), client, id);
    var b :| Best(s.db.tasks, LockedIds(s), client, b);
    if b == id {
      t := s;
      QuietSelf(s, id);
    } else {
      assert b in Waiting(s, client);
      CancelStep(s, id, b);
      var u := Apply(s, Cancel(client, b));
      t := ComesFirst(u, id);
      QuietJoin(s, u, t, id);
    }
  }

  /** A waiting task can be first in line for a process that serves. */
  lemma Fronted(s: Sys, id: nat) returns (t: Sys, pid: nat)
    requires Base(s) && id in s.db.tasks && s.db.tasks[id].status == Pending
    ensures Quietly(s, t, id) && Enabled(t, LockRow(pid, id)) && SettledStep(t, LockRow(pid, id))
  {
    var u := FreeRow(s, id);
    var l := Newcomer(u);
    var v := Apply(u, l);
    QuietStep(u, l, id);
    QuietJoin(s, u, v, id);
    assert LockedIds(v) == LockedIds(u);
    pid := l.pid;
    t := ComesFirst(v, id);
    QuietJoin(s, v, t, id);
  }

  /** The task has been handed out once more; all other holders are still there. */
  ghost predicate Served(s: Sys, t: Sys, k: nat, id: nat)
    requires id in s.db.tasks
  {
    && CanReach(s, t) && Base(t) && id in t.db.tasks && t.db.dead == s.db.dead && AllFollow(s, t)
    && var r, r' := s.db.tasks[id], t.db.tasks[id];
    && r'.maxRetries == r.maxRetries && r'.retryCount == r.retryCount
    && !IsHolding(s.claims, k) && Holds(t, k, id) && t.claims[k].snap.retryCount == r.retryCount && t.claims[k].snap.maxRetries == r.maxRetries
  }

  lemma LockThenHand(s: Sys, pid: nat, id: nat) returns (t: Sys)
    requires Base(s) && Enabled(s, LockRow(pid, id)) && SettledStep(s, LockRow(pid, id))
    ensures Served(s, t, s.nextClaim, id)
  {
    var k, u := s.nextClaim, Apply(s, LockRow(pid, id));
    assert RowOk(id, s.db.tasks[id]) && k !in s.claims;
    QuietStep(s, LockRow(pid, id), id);
    assert u.claims[k] == Claim(pid, s.db.tasks[id], Locked);
    t := Apply(u, Commit(k));
    CommitHands(u, k, id);
    HandsOut(u, Commit(k), k, id);
    ReachJoin(s, u, t);
    forall j | IsHolding(s.claims, j) ensures Follows(s, t, j) {
      assert Follows(s, u, j) && Follows(u, t, j);
    }
  }

  ghost predicate Hands(s: Sys, l: Label, k: nat, id: nat)
    requires Enabled(s, l) && k in s.claims && id in s.db.tasks
  {
    && SettledStep(s, l) && !EndsHolding(l) && DeadWrites(s, l) == s.db.dead
    && IsHolding(ClaimsAfter(s, l), k) && ClaimsAfter(s, l)[k].snap.id == id
    && ClaimsAfter(s, l)[k].snap.retryCount == s.claims[k].snap.retryCount
    && ClaimsAfter(s, l)[k].snap.maxRetries == s.claims[k].snap.maxRetries
    && Do(s.db.tasks[id], WriteTo(s, l, s.db.tasks[id])).maxRetries == s.db.tasks[id].maxRetries
    && Do(s.db.tasks[id], WriteTo(s, l, s.db.tasks[id])).retryCount == s.db.tasks[id].retryCount
  }

  lemma CommitHands(s: Sys, k: nat, id: nat)
    requires Base(s) && AtStage(s, k, Locked) && s.claims[k].snap.id == id && id in s.db.tasks
    ensures Hands(s, Commit(k), k, id)
  {
  }

  lemma Reaches(s: Sys, l: Label, id: nat)
    requires Base(s) && Enabled(s, l) && SettledStep(s, l) && id in s.db.tasks
    ensures CanReach(s, Apply(s, l)) && Base(Apply(s, l))
    ensures id in Apply(s, l).db.tasks && Apply(s, l).db.tasks[id] == Do(s.db.tasks[id], WriteTo(s, l, s.db.tasks[id]))
  {
    BaseStep(s, l);
    ReachOne(s, l);
    RowKept(s, l, id);
  }

  lemma HandsOut(s: Sys, l: Label, k: nat, id: nat)
    requires Base(s) && Enabled(s, l) && k in s.claims && id in s.db.tasks && Hands(s, l, k, id)
    ensures var t := Apply(s, l);
            && CanReach(s, t) && Base(t) && id in t.db.tasks && t.db.dead == s.db.dead && AllFollow(s, t)
            && t.db.tasks[id].maxRetries == s.db.tasks[id].maxRetries && t.db.tasks[id].retryCount == s.db.tasks[id].retryCount
            && Holds(t, k, id) && t.claims[k].snap.retryCount == s.claims[k].snap.retryCount && t.claims[k].snap.maxRetries == s.claims[k].snap.maxRetries
  {
    Reaches(s, l, id);
    AllStillThere(s, l);
  }

  lemma ServedAgain(s: Sys, id: nat) returns (t: Sys, k: nat)
    requires Base(s) && id in s.db.tasks && s.db.tasks[id].status == Pending
    ensures Served(s, t, k, id)
  {
    var u, pid := Fronted(s, id);
    t := LockThenHand(u, pid, id);
    k := u.nextClaim;
    assert IsHolding(s.claims, k) ==> Follows(s, u, k);
    ServedLater(s, u, t, k, id);
  }

  lemma ServedLater(s: Sys, u: Sys, t: Sys, k: nat, id: nat)
    requires Quietly(s, u, id) && Served(u, t, k, id) && !IsHolding(s.claims, k)
    ensures Served(s, t, k, id)
  {
    ReachJoin(s, u, t);
    forall j | IsHolding(s.claims, j) ensures Follows(s, t, j) {
      assert Follows(s, u, j) && Follows(u, t, j);
    }
  }

  // ---------------------------------------------------------------- the other instance is started again

  predicate IsOther(s: Sys, k: nat, name: string) {
    IsHolding(s.claims, k) && s.claims[k].pid in s.procs && s.procs[s.claims[k].pid].name != name
  }

  /** The task is as it was but for its place in the queue, and the holders of other instances are still
      there. */
  ghost predicate OthersFollow(s: Sys, t: Sys, id: nat, name: string) {
    && CanReach(s, t) && Base(t) && id in s.db.tasks && id in t.db.tasks && t.db.dead == s.db.dead
    && t.db.tasks[id].retryCount == s.db.tasks[id].retryCount && t.db.tasks[id].maxRetries == s.db.tasks[id].maxRetries
    && forall k | IsOther(s, k, name) :: Follows(s, t, k)
  }

  lemma OthersJoin(s: Sys, t: Sys, u: Sys, id: nat, name: string)
    requires OthersFollow(s, t, id, name) && OthersFollow(t, u, id, name)
    ensures OthersFollow(s, u, id, name)
  {
    ReachJoin(s, t, u);
    forall k | IsOther(s, k, name) ensures Follows(s, u, k) {
      assert Follows(s, t, k);
      assert IsOther(t, k, name);
      assert Follows(t, u, k);
    }
  }

  function Named(procs: map<nat, Proc>, name: string): set<nat> {
    set p | p in procs && procs[p].name == name
  }

  lemma CrashLeaves(s: Sys, pid: nat, id: nat)
    requires Base(s) && pid in s.procs && id in s.db.tasks
    ensures var l := Crash(pid);
            && Enabled(s, l) && SettledStep(s, l) && DeadWrites(s, l) == s.db.dead && WriteTo(s, l, s.db.tasks[id]) == Keep
            && Named(ProcsAfter(s, l), s.procs[pid].name) == Named(s.procs, s.procs[pid].name) - {pid}
            && forall k | IsOther(s, k, s.procs[pid].name) :: Follows(s, Apply(s, l), k)
  {
  }

  lemma CrashOne(s: Sys, pid: nat, id: nat)
    requires Base(s) && pid in s.procs && id in s.db.tasks
    ensures var t, name := Apply(s, Crash(pid)), s.procs[pid].name;
            OthersFollow(s, t, id, name) && t.db.tasks[id] == s.db.tasks[id] && |Named(t.procs, name)| < |Named(s.procs, name)|
  {
    CrashLeaves(s, pid, id);
    BaseStep(s, Crash(pid));
    ReachOne(s, Crash(pid));
    RowKept(s, Crash(pid), id);
  }

  lemma OthersSelf(s: Sys, id: nat, name: string)
    requires Base(s) && id in s.db.tasks
    ensures OthersFollow(s, s, id, name)
  {
    ReachSelf(s);
  }

  lemma {:induction false} CrashAll(s: Sys, id: nat, name: string) returns (t: Sys)
    requires Base(s) && id in s.db.tasks
    ensures OthersFollow(s, t, id, name) && t.db.tasks[id] == s.db.tasks[id] && Named(t.procs, name) == {}
    decreases |Named(s.procs, name)|
  {
    if pid :| pid in Named(s.procs, name) {
      CrashOne(s, pid, id);
      var u := Apply(s, Crash(pid));
      t := CrashAll(u, id, name);
      OthersJoin(s, u, t, id, name);
    } else {
      t := s;
      OthersSelf(s, id, name);
    }
  }

  lemma RestartRequeuesIt(s: Sys, pid: nat, id: nat, name: string)
    requires id in s.db.tasks && IsOrphanOf(s.db.tasks[id], name) && Named(s.procs, name) == {} && pid !in s.procs
    ensures var l := Spawn(pid, name, true);
            Enabled(s, l) && SettledStep(s, l) && DeadWrites(s, l) == s.db.dead && WriteTo(s, l, s.db.tasks[id]) == Requeue
  {
    assert forall q | q in s.procs :: q !in Named(s.procs, name);
  }

  lemma Recovers(s: Sys, id: nat, name: string) returns (t: Sys)
    requires Base(s) && id in s.db.tasks && IsOrphanOf(s.db.tasks[id], name) && Named(s.procs, name) == {}
    ensures OthersFollow(s, t, id, name) && t.db.tasks[id].status == Pending
  {
    var pid := FreshPid(s.procs.Keys);
    var l := Spawn(pid, name, true);
    RestartRequeuesIt(s, pid, id, name);
    t := Apply(s, l);
    ReachesQuietly(s, l, id);
    RequeuedAmongOthers(s, t, id, name);
  }

  lemma RequeuedAmongOthers(s: Sys, t: Sys, id: nat, name: string)
    requires CanReach(s, t) && Base(t) && id in s.db.tasks && id in t.db.tasks && t.db.dead == s.db.dead && AllFollow(s, t)
    requires t.db.tasks[id] == Do(s.db.tasks[id], Requeue)
    ensures OthersFollow(s, t, id, name) && t.db.tasks[id].status == Pending
  {
  }

  lemma ReachesQuietly(s: Sys, l: Label, id: nat)
    requires Base(s) && Enabled(s, l) && SettledStep(s, l) && !EndsHolding(l) && id in s.db.tasks && DeadWrites(s, l) == s.db.dead
    ensures var t := Apply(s, l);
            && CanReach(s, t) && Base(t) && id in t.db.tasks && t.db.dead == s.db.dead && AllFollow(s, t)
            && t.db.tasks[id] == Do(s.db.tasks[id], WriteTo(s, l, s.db.tasks[id]))
  {
    Reaches(s, l, id);
    AllStillThere(s, l);
  }

  /** A row that runs in the name of an instance can be back in the queue: the instance dies, and is
      started again. */
  lemma Restarted(s: Sys, id: nat, name: string) returns (t: Sys)
    requires Base(s) && id in s.db.tasks && IsOrphanOf(s.db.tasks[id], name)
    ensures OthersFollow(s, t, id, name) && t.db.tasks[id].status == Pending
  {
    var u := CrashAll(s, id, name);
    t := Recovers(u, id, name);
    OthersJoin(s, u, t, id, name);
  }

  // ---------------------------------------------------------------- the counter goes back

  lemma LaterGoesBack(s: Sys, t: Sys, id: nat)
    requires CanReach(s, t) && CounterCanGoBack(t, id)
    ensures CounterCanGoBack(s, id)
  {
    var u, l :| CanReach(t, u) && Enabled(u, l) && SettledStep(u, l) && StaleRetry(u, l, id);
    ReachJoin(s, t, u);
  }

  lemma LeftBehindGoesBack(s: Sys, k: nat, id: nat)
    requires Base(s) && CanRetry(s, k, id) && id in s.db.tasks && s.claims[k].snap.retryCount + 2 <= s.db.tasks[id].retryCount
    ensures CounterCanGoBack(s, id)
  {
    var t := GetsToReport(s, k, id);
    assert Enabled(t, Fail(k, "")) && StaleRetry(t, Fail(k, ""), id);
  }

  /** While a holder sits on an old snapshot, the task is served and fails, until the counter has left the
      snapshot behind. */
  lemma {:induction false} QueuedGoesBack(s: Sys, k: nat, id: nat)
    requires Base(s) && CanRetry(s, k, id) && id in s.db.tasks && s.db.tasks[id].status == Pending
    requires s.claims[k].snap.retryCount + 2 <= s.db.tasks[id].maxRetries
    ensures CounterCanGoBack(s, id)
    decreases if id in s.db.tasks then s.db.tasks[id].maxRetries - s.db.tasks[id].retryCount else 0
  {
    if s.claims[k].snap.retryCount + 2 <= s.db.tasks[id].retryCount {
      LeftBehindGoesBack(s, k, id);
    } else {
      var t, j := ServedAgain(s, id);
      assert Follows(s, t, k);
      var u := HolderReports(t, j, id);
      assert Follows(t, u, k);
      ReachJoin(s, t, u);
      QueuedGoesBack(u, k, id);
      LaterGoesBack(s, u, id);
    }
  }

  lemma TwoGoBack(s: Sys, k: nat, j: nat, id: nat)
    requires Base(s) && CanRetry(s, k, id) && CanRetry(s, j, id) && j != k && id in s.db.tasks
    requires s.claims[k].snap.retryCount + 2 <= s.db.tasks[id].maxRetries
    ensures CounterCanGoBack(s, id)
  {
    var t := HolderReports(s, j, id);
    assert Follows(s, t, k);
    QueuedGoesBack(t, k, id);
    LaterGoesBack(s, t, id);
  }

  lemma PendingGoesBack(s: Sys, k: nat, id: nat)
    requires Base(s) && CanRetry(s, k, id) && id in s.db.tasks && s.db.tasks[id].status == Pending
    requires s.claims[k].snap.retryCount + 2 <= s.db.tasks[id].maxRetries || s.db.tasks[id].retryCount + 2 <= s.db.tasks[id].maxRetries
    ensures CounterCanGoBack(s, id)
  {
    if s.claims[k].snap.retryCount + 2 <= s.db.tasks[id].maxRetries {
      QueuedGoesBack(s, k, id);
    } else {
      var t, j := ServedAgain(s, id);
      assert Follows(s, t, k);
      TwoGoBack(t, j, k, id);
      LaterGoesBack(s, t, id);
    }
  }

  lemma LooseGoesBack(s: Sys, k: nat, id: nat)
    requires Base(s) && CanRetry(s, k, id) && id in s.db.tasks && Loose(s, k, id)
    requires s.claims[k].snap.retryCount + 2 <= s.db.tasks[id].maxRetries || s.db.tasks[id].retryCount + 2 <= s.db.tasks[id].maxRetries
    ensures CounterCanGoBack(s, id)
  {
    if s.db.tasks[id].status == Pending {
      PendingGoesBack(s, k, id);
    } else {
      assert RowOk(id, s.db.tasks[id]);
      var name := s.db.tasks[id].processedBy.value;
      var t := Restarted(s, id, name);
      assert IsOther(s, k, name) && Follows(s, t, k);
      PendingGoesBack(t, k, id);
      LaterGoesBack(s, t, id);
    }
  }

  lemma RiskComesTrue(s: Sys, id: nat)
    requires Base(s) && CounterAtRisk(s, id)
    ensures CounterCanGoBack(s, id)
  {
    var k :| CanRetry(s, k, id) && RiskOf(s, k, id);
    var r, count := s.db.tasks[id], s.claims[k].snap.retryCount;
    if count + 2 <= r.retryCount {
      LeftBehindGoesBack(s, k, id);
    } else if j :| j != k && CanRetry(s, j, id) && count + 2 <= r.maxRetries {
      TwoGoBack(s, k, j, id);
    } else {
      LooseGoesBack(s, k, id);
    }
  }

  /** From any state of any run, a settled future can take the retry counter of a task back if and only if
      a holder is left over that has fallen behind it or can fall behind it. */
  lemma CounterGoesBackIffAtRisk(states: seq<Sys>, labels: seq<Label>, i: nat, id: nat)
    requires Run(states, labels) && i < |states|
    ensures CounterCanGoBack(states[i], id) <==> CounterAtRisk(states[i], id)
  {
    BaseRun(states, labels, i);
    var s := states[i];
    if CounterAtRisk(s, id) {
      RiskComesTrue(s, id);
    }
    if t, l :| CanReach(s, t) && Enabled(t, l) && SettledStep(t, l) && StaleRetry(t, l, id) {
      var ls :| Path(s, ls, t);
      BaseAlong(s, ls, t);
      StaleRetryIsRisk(t, l, id);
      NoRiskAlong(s, ls, t, id);
    }
  }

  // ---------------------------------------------------------------- a second letter is filed

  /** The last failure of the task can be recorded next, and no letter has been filed on the way. */
  ghost predicate AtTheEnd(s: Sys, t: Sys, k: nat, id: nat) {
    && CanReach(s, t) && Base(t) && DeadCount(t.db.dead, id) == DeadCount(s.db.dead, id)
    && Holds(t, k, id) && !HasRetriesLeft(t.claims[k].snap)
    && Enabled(t, Fail(k, "")) && SettledStep(t, Fail(k, "")) && Fails(t, Fail(k, ""), id)
  }

  lemma AtTheEndLater(s: Sys, t: Sys, u: Sys, k: nat, id: nat)
    requires CanReach(s, t) && DeadCount(t.db.dead, id) == DeadCount(s.db.dead, id) && AtTheEnd(t, u, k, id)
    ensures AtTheEnd(s, u, k, id)
  {
    ReachJoin(s, t, u);
  }

  lemma ExhaustedEnds(s: Sys, k: nat, id: nat) returns (t: Sys)
    requires Base(s) && Holds(s, k, id) && !HasRetriesLeft(s.claims[k].snap)
    ensures AtTheEnd(s, t, k, id) && AllFollow(s, t)
  {
    t := GetsToReport(s, k, id);
  }

  lemma FollowsOn(s: Sys, t: Sys, u: Sys, j: nat)
    requires Follows(s, t, j) && Follows(t, u, j)
    ensures Follows(s, u, j)
  {
  }

  /** A queued task is served and fails until it has failed too often, whoever else holds it. */
  lemma {:induction false} QueuedToEnd(s: Sys, id: nat) returns (t: Sys, k: nat)
    requires Base(s) && id in s.db.tasks && s.db.tasks[id].status == Pending
    ensures AtTheEnd(s, t, k, id) && !IsHolding(s.claims, k) && AllFollow(s, t)
    decreases if id in s.db.tasks then s.db.tasks[id].maxRetries - s.db.tasks[id].retryCount else 0
  {
    var u;
    u, k := ServedAgain(s, id);
    if HasRetriesLeft(u.claims[k].snap) {
      t, k := RetriedToEnd(s, u, k, id);
    } else {
      t := ExhaustedEnds(u, k, id);
      AtTheEndLater(s, u, t, k, id);
      forall j | IsHolding(s.claims, j) ensures Follows(s, t, j) {
        FollowsOn(s, u, t, j);
      }
    }
  }

  lemma {:induction false} RetriedToEnd(s: Sys, u: Sys, j: nat, id: nat) returns (t: Sys, k: nat)
    requires Base(s) && id in s.db.tasks && Served(s, u, j, id) && HasRetriesLeft(u.claims[j].snap)
    ensures AtTheEnd(s, t, k, id) && !IsHolding(s.claims, k) && AllFollow(s, t)
    decreases if id in s.db.tasks then s.db.tasks[id].maxRetries - s.db.tasks[id].retryCount else 0, 0
  {
    var v := HolderReports(u, j, id);
    ReachJoin(s, u, v);
    t, k := QueuedToEnd(v, id);
    AtTheEndLater(s, v, t, k, id);
    forall i | IsHolding(s.claims, i) ensures Follows(s, t, i) && i != k {
      assert Follows(s, u, i) && Follows(u, v, i);
      FollowsOn(s, u, v, i);
      FollowsOn(s, v, t, i);
    }
  }

  /** So does one that somebody holds. */
  lemma HolderToEnd(s: Sys, j: nat, id: nat) returns (t: Sys, k: nat)
    requires Base(s) && Holds(s, j, id) && id in s.db.tasks
    ensures AtTheEnd(s, t, k, id) && forall i | IsHolding(s.claims, i) && i != j :: Follows(s, t, i) && i != k
  {
    if HasRetriesLeft(s.claims[j].snap) {
      var u := HolderReports(s, j, id);
      t, k := QueuedToEnd(u, id);
      AtTheEndLater(s, u, t, k, id);
      forall i | IsHolding(s.claims, i) && i != j ensures Follows(s, t, i) && i != k {
        FollowsOn(s, u, t, i);
      }
    } else {
      t := ExhaustedEnds(s, j, id);
      k := j;
    }
  }

  lemma LetterFollows(s: Sys, t: Sys, k: nat, id: nat)
    requires AtTheEnd(s, t, k, id) && DeadCount(s.db.dead, id) >= 1
    ensures LetterCanFollow(s, id)
  {
    assert LateLetter(t, Fail(k, ""), id);
  }

  lemma LaterFollows(s: Sys, t: Sys, id: nat)
    requires CanReach(s, t) && LetterCanFollow(t, id)
    ensures LetterCanFollow(s, id)
  {
    var u, l :| CanReach(t, u) && Enabled(u, l) && SettledStep(u, l) && LateLetter(u, l, id);
    ReachJoin(s, t, u);
  }

  /** One files the first letter, and the one that is left over the second. */
  lemma OneThenOther(s: Sys, t: Sys, k: nat, j: nat, id: nat)
    requires AtTheEnd(s, t, k, id) && id in t.db.tasks && Holds(t, j, id) && j != k
    ensures LetterCanFollow(s, id)
  {
    var u := HolderReports(t, k, id);
    assert Follows(t, u, j);
    var v, i := HolderToEnd(u, j, id);
    LetterFollows(u, v, i, id);
    LaterFollows(t, u, id);
    LaterFollows(s, t, id);
  }

  lemma TwoFile(s: Sys, k: nat, j: nat, id: nat)
    requires Base(s) && Holds(s, k, id) && Holds(s, j, id) && j != k && id in s.db.tasks
    ensures LetterCanFollow(s, id)
  {
    var t, i := HolderToEnd(s, k, id);
    assert Follows(s, t, j) && SnapOk(t.db.tasks, t.claims[j].snap);
    OneThenOther(s, t, i, j, id);
  }

  lemma QueuedFiles(s: Sys, k: nat, id: nat)
    requires Base(s) && Holds(s, k, id) && id in s.db.tasks && s.db.tasks[id].status == Pending
    ensures LetterCanFollow(s, id)
  {
    var t, i := QueuedToEnd(s, id);
    assert Follows(s, t, k) && SnapOk(t.db.tasks, t.claims[k].snap);
    OneThenOther(s, t, i, k, id);
  }

  lemma LooseFiles(s: Sys, k: nat, id: nat)
    requires Base(s) && Holds(s, k, id) && id in s.db.tasks && Loose(s, k, id)
    ensures LetterCanFollow(s, id)
  {
    if s.db.tasks[id].status == Pending {
      QueuedFiles(s, k, id);
    } else {
      assert RowOk(id, s.db.tasks[id]);
      var name := s.db.tasks[id].processedBy.value;
      var t := Restarted(s, id, name);
      assert IsOther(s, k, name) && Follows(s, t, k);
      QueuedFiles(t, k, id);
      LaterFollows(s, t, id);
    }
  }

  lemma AtWorkFiles(s: Sys, id: nat)
    requires Base(s) && AtWork(s, id) && DeadCount(s.db.dead, id) >= 1
    ensures LetterCanFollow(s, id)
  {
    if k :| Holds(s, k, id) {
      var t, i := HolderToEnd(s, k, id);
      LetterFollows(s, t, i, id);
    } else if s.db.tasks[id].status == Pending {
      var t, i := QueuedToEnd(s, id);
      LetterFollows(s, t, i, id);
    } else {
      assert RowOk(id, s.db.tasks[id]);
      var u := Restarted(s, id, s.db.tasks[id].processedBy.value);
      var t, i := QueuedToEnd(u, id);
      LetterFollows(u, t, i, id);
      LaterFollows(s, u, id);
    }
  }

  lemma LetterRiskComesTrue(s: Sys, id: nat)
    requires Base(s) && LetterAtRisk(s, id)
    ensures LetterCanFollow(s, id)
  {
    if DeadCount(s.db.dead, id) >= 1 {
      AtWorkFiles(s, id);
    } else {
      var k :| Holds(s, k, id) && (Loose(s, k, id) || exists j :: j != k && Holds(s, j, id));
      if Loose(s, k, id) {
        LooseFiles(s, k, id);
      } else {
        var j :| j != k && Holds(s, j, id);
        TwoFile(s, k, j, id);
      }
    }
  }

  /** From any state of any run, a settled future can file a dead letter for a task that has one if and
      only if the task has one and is not at rest, or has none and two can come to hold it. */
  lemma LetterFollowsIffAtRisk(states: seq<Sys>, labels: seq<Label>, i: nat, id: nat)
    requires Run(states, labels) && i < |states|
    ensures LetterCanFollow(states[i], id) <==> LetterAtRisk(states[i], id)
  {
    BaseRun(states, labels, i);
    var s := states[i];
    if LetterAtRisk(s, id) {
      LetterRiskComesTrue(s, id);
    }
    if t, l :| CanReach(s, t) && Enabled(t, l) && SettledStep(t, l) && LateLetter(t, l, id) {
      var ls :| Path(s, ls, t);
      BaseAlong(s, ls, t);
      LateLetterIsRisk(t, l, id);
      NoLetterRiskAlong(s, ls, t, id);
    }
  }
}
