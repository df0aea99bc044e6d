/** What every interleaving keeps, with no assumption at all about names, timeouts or failed
    writes: stale workers and racing watchdogs included. */
module Unconditional {
  import opened Tasks
  import opened Protocol

  /** The columns no statement ever updates. */
  predicate SameTask(a: Task, b: Task) {
    && a.id == b.id && a.client == b.client && a.kind == b.kind && a.priority == b.priority
    && a.payload == b.payload && a.maxRetries == b.maxRetries && a.createdAt == b.createdAt
  }

  predicate RowOk(id: nat, r: Task) {
    && r.id == id
    && 0 <= r.retryCount <= r.maxRetries
    && (r.completedAt == None <==> r.status in {Pending, Running})
    && (r.status == Running ==> r.processedBy.Some?)
  }

  /** A snapshot may be arbitrarily old, but it is of a row that exists. */
  predicate SnapOk(tasks: map<nat, Task>, t: Task) {
    t.id in tasks && SameTask(t, tasks[t.id]) && 0 <= t.retryCount <= t.maxRetries
  }

  predicate LetterOk(tasks: map<nat, Task>, e: DeadLetter) {
    && e.taskId in tasks
    && var r := tasks[e.taskId];
    && e.client == r.client && e.kind == r.kind && e.priority == r.priority && e.payload == r.payload
    && e.createdAt == r.createdAt && e.maxRetries == r.maxRetries && e.retryCount == r.maxRetries
  }

  predicate TallyOk(r: Task, y: Tally) {
    y.claims + (if r.status == Pending then 1 else 0) <= 1 + y.retries + y.requeues
  }

  ghost predicate RowsOk(tasks: map<nat, Task>, nextId: nat) {
    forall id | id in tasks :: RowOk(id, tasks[id]) && id < nextId
  }

  ghost predicate ClaimsOk(tasks: map<nat, Task>, claims: map<nat, Claim>, procs: map<nat, Proc>, nextClaim: nat) {
    forall k | k in claims :: SnapOk(tasks, claims[k].snap) && claims[k].pid in procs && k < nextClaim
  }

  ghost predicate FoundOk(tasks: map<nat, Task>, found: set<(nat, Task)>) {
    forall f | f in found :: SnapOk(tasks, f.1)
  }

  predicate IsLock(claims: map<nat, Claim>, k: nat) {
    k in claims && claims[k].stage.Locked?
  }

  predicate LockOk(tasks: map<nat, Task>, t: Task) {
    t.id in tasks && tasks[t.id] == t && t.status == Pending
  }

  /** The lock keeps the row as it was read, and keeps other claims away from it. */
  ghost predicate LocksOk(tasks: map<nat, Task>, claims: map<nat, Claim>) {
    && (forall k | IsLock(claims, k) :: LockOk(tasks, claims[k].snap))
    && (forall j, k | IsLock(claims, j) && IsLock(claims, k) && claims[j].snap.id == claims[k].snap.id :: j == k)
  }

  ghost predicate LettersOk(tasks: map<nat, Task>, dead: seq<DeadLetter>) {
    && (forall i | 0 <= i < |dead| :: LetterOk(tasks, dead[i]))
    && (forall id | id in tasks && tasks[id].status == Failed :: DeadCount(dead, id) >= 1)
  }

  ghost predicate CountsOk(tasks: map<nat, Task>, tally: map<nat, Tally>) {
    tally.Keys == tasks.Keys && forall id | id in tasks :: TallyOk(tasks[id], tally[id])
  }

  ghost predicate Base(s: Sys) {
    && RowsOk(s.db.tasks, s.db.nextId)
    && ClaimsOk(s.db.tasks, s.claims, s.procs, s.nextClaim)
    && FoundOk(s.db.tasks, s.found)
    && LocksOk(s.db.tasks, s.claims)
    && LettersOk(s.db.tasks, s.db.dead)
    && CountsOk(s.db.tasks, s.tally)
  }

  // ---------------------------------------------------------------- writes to one row

  /** What the guards and the snapshots guarantee about a write. */
  predicate WriteOk(r: Task, w: Write) {
    match w
    case TakeBy(_) => r.status == Pending
    case Abandon(_) => r.status in {Pending, Running}
    case FailAs(snap, _, _) => SameTask(snap, r) && 0 <= snap.retryCount <= snap.maxRetries
    case Requeue => r.status == Running
    case _ => true
  }

  lemma DoOk(r: Task, w: Write, y: Tally, aborted: bool)
    requires RowOk(r.id, r) && WriteOk(r, w) && TallyOk(r, y)
    ensures RowOk(r.id, Do(r, w)) && SameTask(r, Do(r, w)) && TallyOk(Do(r, w), Counted(y, w, aborted))
  {
  }

  function Failing(s: Sys, l: Label): Task
    requires Enabled(s, l) && (l.Fail? || l.WatchFail?)
  {
    if l.Fail? then s.claims[l.k].snap else l.snap
  }

  /** The step records a failure of this task. */
  predicate Fails(s: Sys, l: Label, id: nat) {
    Enabled(s, l) && (l.Fail? || l.WatchFail?) && Failing(s, l).id == id
  }

  lemma FailsAs(s: Sys, l: Label, r: Task)
    requires Enabled(s, l)
    ensures WriteTo(s, l, r).FailAs? <==> Fails(s, l, r.id)
    ensures WriteTo(s, l, r).FailAs? ==> WriteTo(s, l, r).snap == Failing(s, l)
  {
  }

  lemma FailingOk(s: Sys, l: Label)
    requires ClaimsOk(s.db.tasks, s.claims, s.procs, s.nextClaim) && FoundOk(s.db.tasks, s.found)
    requires Enabled(s, l) && (l.Fail? || l.WatchFail?)
    ensures SnapOk(s.db.tasks, Failing(s, l))
  {
    if l.WatchFail? {
      assert SnapOk(s.db.tasks, (l.pid, l.snap).1);
    }
  }

  lemma WriteToOk(s: Sys, l: Label, id: nat)
    requires Base(s) && Enabled(s, l) && id in s.db.tasks
    ensures WriteOk(s.db.tasks[id], WriteTo(s, l, s.db.tasks[id]))
  {
    if l.Fail? || l.WatchFail? {
      FailingOk(s, l);
    }
    if l.Commit? {
      assert IsLock(s.claims, l.k);
    }
  }

  lemma RowStep(s: Sys, l: Label, id: nat)
    requires Base(s) && Enabled(s, l) && id in s.db.tasks
    ensures var r, r' := s.db.tasks[id], RowAfter(s.db.tasks[id], s, l);
            SameTask(r, r') && RowOk(id, r') && TallyOk(r', Counted(s.tally[id], WriteTo(s, l, r), Aborts(s, l, id)))
  {
    WriteToOk(s, l, id);
    DoOk(s.db.tasks[id], WriteTo(s, l, s.db.tasks[id]), s.tally[id], Aborts(s, l, id));
  }

  lemma RowsStep(s: Sys, l: Label)
    requires Base(s) && Enabled(s, l)
    ensures RowsOk(RowWrites(s.db.tasks, s, l), if l.Create? then s.db.nextId + 1 else s.db.nextId)
  {
    forall id | id in s.db.tasks ensures RowOk(id, RowAfter(s.db.tasks[id], s, l)) {
      RowStep(s, l, id);
    }
  }

  lemma SameStep(s: Sys, l: Label)
    requires Base(s) && Enabled(s, l)
    ensures forall id | id in s.db.tasks ::
              id in RowWrites(s.db.tasks, s, l) && SameTask(s.db.tasks[id], RowWrites(s.db.tasks, s, l)[id])
  {
    forall id | id in s.db.tasks
      ensures id in RowWrites(s.db.tasks, s, l) && SameTask(s.db.tasks[id], RowWrites(s.db.tasks, s, l)[id])
    {
      assert RowOk(id, s.db.tasks[id]);
      RowStep(s, l, id);
    }
  }

  lemma CountsStep(s: Sys, l: Label)
    requires Base(s) && Enabled(s, l)
    ensures CountsOk(RowWrites(s.db.tasks, s, l), TallyAfter(s, l))
  {
    forall id | id in s.db.tasks
      ensures TallyOk(RowAfter(s.db.tasks[id], s, l), Counted(s.tally[id], WriteTo(s, l, s.db.tasks[id]), Aborts(s, l, id)))
    {
      RowStep(s, l, id);
    }
  }

  // ---------------------------------------------------------------- claims and locks

  /** Where a claim comes from: it is a new lock, or it was there before, the same in all but
      its stage and the columns a commit resets. */
  lemma ClaimOrigin(s: Sys, l: Label, k: nat)
    requires Enabled(s, l) && k in ClaimsAfter(s, l)
    ensures var c' := ClaimsAfter(s, l)[k];
            if l.LockRow? && k == s.nextClaim then
              l.id in s.db.tasks && c' == Claim(l.pid, s.db.tasks[l.id], Locked)
            else
              && k in s.claims
              && var c := s.claims[k];
              && c'.pid == c.pid && SameTask(c'.snap, c.snap) && c'.snap.retryCount == c.snap.retryCount
              && (l != Commit(k) ==> c'.snap == c.snap)
              && (c'.stage.Locked? ==> c' == c && l != Commit(k))
              && (!c'.stage.Locked? && c.stage.Locked? ==> l == Commit(k))
              && (c.pid in s.procs ==> c.pid in ProcsAfter(s, l))
  {
  }

  lemma SnapStays(tasks: map<nat, Task>, tasks': map<nat, Task>, a: Task, b: Task)
    requires SnapOk(tasks, a) && SameTask(a, b) && a.retryCount == b.retryCount
    requires a.id in tasks' && SameTask(tasks[a.id], tasks'[a.id])
    ensures SnapOk(tasks', b)
  {
  }

  lemma ClaimsStep(s: Sys, l: Label)
    requires Base(s) && Enabled(s, l)
    ensures ClaimsOk(RowWrites(s.db.tasks, s, l), ClaimsAfter(s, l), ProcsAfter(s, l), if l.LockRow? then s.nextClaim + 1 else s.nextClaim)
  {
    var tasks', claims' := RowWrites(s.db.tasks, s, l), ClaimsAfter(s, l);
    SameStep(s, l);
    forall k | k in claims'
      ensures SnapOk(tasks', claims'[k].snap) && claims'[k].pid in ProcsAfter(s, l)
      ensures k < if l.LockRow? then s.nextClaim + 1 else s.nextClaim
    {
      ClaimOrigin(s, l, k);
      if l.LockRow? && k == s.nextClaim {
        assert RowOk(l.id, s.db.tasks[l.id]);
        SnapStays(s.db.tasks, tasks', s.db.tasks[l.id], claims'[k].snap);
      } else {
        SnapStays(s.db.tasks, tasks', s.claims[k].snap, claims'[k].snap);
      }
    }
  }

  lemma FoundOrigin(s: Sys, l: Label, f: (nat, Task))
    requires Enabled(s, l) && f in FoundAfter(s, l)
    ensures f in s.found || (l.Find? && f.1 in StaleTasks(s.db.tasks, s.clock - l.timeout))
  {
  }

  lemma FoundStep(s: Sys, l: Label)
    requires Base(s) && Enabled(s, l)
    ensures FoundOk(RowWrites(s.db.tasks, s, l), FoundAfter(s, l))
  {
    var tasks' := RowWrites(s.db.tasks, s, l);
    SameStep(s, l);
    forall f | f in FoundAfter(s, l) ensures SnapOk(tasks', f.1) {
      FoundOrigin(s, l, f);
      if f !in s.found {
        var id :| id in s.db.tasks && s.db.tasks[id] == f.1;
        assert RowOk(id, s.db.tasks[id]);
      }
      SnapStays(s.db.tasks, tasks', f.1, f.1);
    }
  }

  /** No step touches the row of a lock that stays open. */
  lemma LockedKeeps(s: Sys, l: Label, k: nat)
    requires LocksOk(s.db.tasks, s.claims) && Enabled(s, l) && IsLock(s.claims, k) && l != Commit(k)
    ensures WriteTo(s, l, s.db.tasks[s.claims[k].snap.id]) == Keep
  {
    assert s.claims[k].snap.id in LockedIds(s);
    if l.Commit? {
      assert IsLock(s.claims, l.k);
    }
  }

  lemma LockStep(s: Sys, l: Label, k: nat)
    requires Base(s) && Enabled(s, l) && IsLock(ClaimsAfter(s, l), k)
    ensures LockOk(RowWrites(s.db.tasks, s, l), ClaimsAfter(s, l)[k].snap)
  {
    ClaimOrigin(s, l, k);
    if l.LockRow? && k == s.nextClaim {
      assert RowOk(l.id, s.db.tasks[l.id]);
    } else {
      assert IsLock(s.claims, k);
      LockedKeeps(s, l, k);
      assert s.claims[k].snap.id < s.db.nextId by { assert RowOk(s.claims[k].snap.id, s.db.tasks[s.claims[k].snap.id]); }
    }
  }

  /** Two locks of one row are one lock. */
  lemma LockedOnceStep(s: Sys, l: Label, j: nat, k: nat)
    requires Base(s) && Enabled(s, l) && IsLock(ClaimsAfter(s, l), j) && IsLock(ClaimsAfter(s, l), k) && j != k
    ensures ClaimsAfter(s, l)[j].snap.id != ClaimsAfter(s, l)[k].snap.id
  {
    ClaimOrigin(s, l, j);
    ClaimOrigin(s, l, k);
    assert j in s.claims && s.claims[j].stage.Locked? ==> IsLock(s.claims, j) && s.claims[j].snap.id in LockedIds(s);
    assert k in s.claims && s.claims[k].stage.Locked? ==> IsLock(s.claims, k) && s.claims[k].snap.id in LockedIds(s);
    if l.LockRow? {
      assert l.id !in LockedIds(s) && RowOk(l.id, s.db.tasks[l.id]);
    }
  }

  lemma LocksStep(s: Sys, l: Label)
    requires Base(s) && Enabled(s, l)
    ensures LocksOk(RowWrites(s.db.tasks, s, l), ClaimsAfter(s, l))
  {
    var tasks', claims' := RowWrites(s.db.tasks, s, l), ClaimsAfter(s, l);
    forall k | IsLock(claims', k) ensures LockOk(tasks', claims'[k].snap) {
      LockStep(s, l, k);
    }
    forall j, k | IsLock(claims', j) && IsLock(claims', k) && claims'[j].snap.id == claims'[k].snap.id ensures j == k {
      if j != k { LockedOnceStep(s, l, j, k); }
    }
  }

  // ---------------------------------------------------------------- dead letters

  /** The count of a task's dead letters goes up exactly when the step fails the task with a
      snapshot that has no retry left. */
  lemma LetterCounted(s: Sys, l: Label, id: nat)
    requires Enabled(s, l) && id in s.db.tasks && s.db.tasks[id].id == id
    ensures var w := WriteTo(s, l, s.db.tasks[id]);
            DeadCount(DeadWrites(s, l), id) == DeadCount(s.db.dead, id) + (if w.FailAs? && !HasRetriesLeft(w.snap) then 1 else 0)
  {
    if l.Fail? || l.WatchFail? {
      DeadCountPush(s.db.dead, Letter(Failing(s, l), l.err, s.clock), id);
    }
  }

  lemma NewLetterOk(s: Sys, l: Label)
    requires Base(s) && Enabled(s, l) && (l.Fail? || l.WatchFail?) && !HasRetriesLeft(Failing(s, l))
    ensures DeadWrites(s, l) == s.db.dead + [Letter(Failing(s, l), l.err, s.clock)]
    ensures LetterOk(s.db.tasks, Letter(Failing(s, l), l.err, s.clock))
  {
    FailingOk(s, l);
  }

  lemma NoNewLetter(s: Sys, l: Label)
    requires Enabled(s, l) && (l.Fail? || l.WatchFail? ==> HasRetriesLeft(Failing(s, l)))
    ensures DeadWrites(s, l) == s.db.dead
  {
  }

  lemma LettersFollowRows(tasks: map<nat, Task>, tasks': map<nat, Task>, dead: seq<DeadLetter>)
    requires forall i | 0 <= i < |dead| :: LetterOk(tasks, dead[i])
    requires forall id | id in tasks :: id in tasks' && SameTask(tasks[id], tasks'[id])
    ensures forall i | 0 <= i < |dead| :: LetterOk(tasks', dead[i])
  {
  }

  lemma FailedIsNew(r: Task, w: Write)
    requires Do(r, w).status == Failed
    ensures r.status == Failed || (w.FailAs? && !HasRetriesLeft(w.snap))
  {
  }

  lemma FailedHasLetter(s: Sys, l: Label, id: nat)
    requires Base(s) && Enabled(s, l) && id in s.db.tasks && RowAfter(s.db.tasks[id], s, l).status == Failed
    ensures DeadCount(DeadWrites(s, l), id) >= 1
  {
    assert RowOk(id, s.db.tasks[id]);
    LetterCounted(s, l, id);
    FailedIsNew(s.db.tasks[id], WriteTo(s, l, s.db.tasks[id]));
  }

  lemma FailedHaveLetters(s: Sys, l: Label)
    requires Base(s) && Enabled(s, l)
    ensures forall id | id in RowWrites(s.db.tasks, s, l) && RowWrites(s.db.tasks, s, l)[id].status == Failed ::
              DeadCount(DeadWrites(s, l), id) >= 1
  {
    forall id | id in RowWrites(s.db.tasks, s, l) && RowWrites(s.db.tasks, s, l)[id].status == Failed
      ensures DeadCount(DeadWrites(s, l), id) >= 1
    {
      FailedHasLetter(s, l, id);
    }
  }

  lemma LettersStep(s: Sys, l: Label)
    requires Base(s) && Enabled(s, l)
    ensures LettersOk(RowWrites(s.db.tasks, s, l), DeadWrites(s, l))
  {
    if (l.Fail? || l.WatchFail?) && !HasRetriesLeft(Failing(s, l)) {
      NewLetterOk(s, l);
    } else {
      NoNewLetter(s, l);
    }
    SameStep(s, l);
    LettersFollowRows(s.db.tasks, RowWrites(s.db.tasks, s, l), DeadWrites(s, l));
    FailedHaveLetters(s, l);
  }

  // ---------------------------------------------------------------- steps and runs

  lemma BaseStep(s: Sys, l: Label)
    requires Base(s) && Enabled(s, l)
    ensures Base(Apply(s, l))
  {
    RowsStep(s, l);
    CountsStep(s, l);
    ClaimsStep(s, l);
    FoundStep(s, l);
    LocksStep(s, l);
    LettersStep(s, l);
  }

  lemma {:induction false} BaseRun(states: seq<Sys>, labels: seq<Label>, i: nat)
    requires Run(states, labels) && i < |states|
    ensures Base(states[i])
  {
    if i > 0 {
      BaseRun(states, labels, i - 1);
      assert Steps(states[i - 1], labels[i - 1], states[i - 1 + 1]);
      BaseStep(states[i - 1], labels[i - 1]);
    }
  }
}
