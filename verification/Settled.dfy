/** The regime the source asks its operator for: an instance name is used by one live process at
    a time, and a watchdog only fails a row that is still the running row it read and that no
    live worker holds. In this regime the counters of a task add up exactly, a failed row and its
    dead letter imply each other, and finished tasks stay as they are. */
module Settled {
  import opened Tasks
  import opened Protocol
  import opened Unconditional
  import opened Coherence

  ghost predicate SettledStep(s: Sys, l: Label) {
    && (l.Spawn? ==> forall q | q in s.procs :: s.procs[q].name != l.name)
    && (l.WatchFail? ==> l.snap.id in s.db.tasks && s.db.tasks[l.snap.id] == l.snap && l.snap.status == Running && !Held(s, l.snap.id))
  }

  ghost predicate SettledRun(states: seq<Sys>, labels: seq<Label>) {
    Run(states, labels) && forall i {:trigger labels[i]} | 0 <= i < |labels| :: SettledStep(states[i], labels[i])
  }

  /** What is known of one task: every retry was counted, every attempt was a claim, and the dead
      letter is there exactly when the row says so. */
  predicate LedgerOk(r: Task, y: Tally, letters: nat, held: bool) {
    && r.retryCount == y.retries
    && letters == (if r.status == Failed then 1 else 0)
    && (r.status == Failed ==> r.retryCount == r.maxRetries)
    && match r.status
       case Pending => y.claims == y.retries + y.requeues
       case Cancelled => y.retries + y.requeues <= y.claims <= y.retries + y.requeues + 1 && (held ==> y.claims == y.retries + y.requeues + 1)
       case _ => y.claims == y.retries + y.requeues + 1
  }

  /** The copy in the dead letters and the failed row tell the same story. */
  predicate LetterAgrees(tasks: map<nat, Task>, e: DeadLetter) {
    && e.taskId in tasks
    && var r := tasks[e.taskId];
    r.status == Failed && r.completedAt == Some(e.failedAt) && r.errorMessage == Some(e.finalError) && r.processedBy == e.processedBy
  }

  ghost predicate NamesUnique(procs: map<nat, Proc>) {
    forall p, q | p in procs && q in procs && procs[p].name == procs[q].name :: p == q
  }

  ghost predicate LedgersOk(tasks: map<nat, Task>, tally: map<nat, Tally>, dead: seq<DeadLetter>, claims: map<nat, Claim>) {
    && tally.Keys == tasks.Keys
    && forall id | id in tasks :: LedgerOk(tasks[id], tally[id], DeadCount(dead, id), HeldIn(claims, id))
  }

  ghost predicate LettersAgree(tasks: map<nat, Task>, dead: seq<DeadLetter>) {
    forall i | 0 <= i < |dead| :: LetterAgrees(tasks, dead[i])
  }

  ghost predicate SettledInv(s: Sys) {
    Base(s) && Coherent(s) && NamesUnique(s.procs) && LedgersOk(s.db.tasks, s.tally, s.db.dead, s.claims) && LettersAgree(s.db.tasks, s.db.dead)
  }

  lemma SettledIsSafe(s: Sys, l: Label)
    requires Base(s) && Coherent(s) && Enabled(s, l) && SettledStep(s, l)
    ensures Safe(s, l)
  {
    if l.Spawn? {
      forall k | k in s.claims && !s.claims[k].stage.Locked? ensures !IsOrphanOf(s.db.tasks[s.claims[k].snap.id], l.name) {
        assert HolderOk(s.db.tasks, s.procs, s.claims[k]);
      }
    }
  }

  // ---------------------------------------------------------------- one task

  /** What the settled regime guarantees about a write, over and above WriteOk. */
  predicate SettledWrite(r: Task, held: bool, w: Write) {
    && (w.Begin? || w.Finish? || w.FailAs? ==> r.status == Running || (r.status == Cancelled && held))
    && (w.FailAs? ==> w.snap.retryCount == r.retryCount && w.snap.processedBy == r.processedBy && w.snap.maxRetries == r.maxRetries)
    && (w.Abandon? && held ==> r.status == Running)
  }

  lemma HeldBy(s: Sys, k: nat)
    requires Coherent(s) && k in s.claims && !s.claims[k].stage.Locked?
    ensures var id := s.claims[k].snap.id;
            id in s.db.tasks && Held(s, id) && s.db.tasks[id].status in {Running, Cancelled}
            && s.claims[k].snap.retryCount == s.db.tasks[id].retryCount && s.claims[k].snap.processedBy == s.db.tasks[id].processedBy
  {
    assert HolderOk(s.db.tasks, s.procs, s.claims[k]);
  }

  /** A pending row is held by its lock or not at all. */
  lemma PendingHeldIsLocked(s: Sys, id: nat)
    requires Coherent(s) && id in s.db.tasks && s.db.tasks[id].status == Pending && id !in LockedIds(s)
    ensures !Held(s, id)
  {
    forall k | k in s.claims ensures s.claims[k].snap.id != id {
      assert HolderOk(s.db.tasks, s.procs, s.claims[k]);
      assert s.claims[k].stage.Locked? ==> s.claims[k].snap.id in LockedIds(s);
    }
  }

  lemma HolderWriteOk(s: Sys, l: Label, id: nat)
    requires SettledInv(s) && Enabled(s, l) && id in s.db.tasks && (l.Start? || l.Complete? || l.Fail?)
    ensures SettledWrite(s.db.tasks[id], Held(s, id), WriteTo(s, l, s.db.tasks[id]))
  {
    HeldBy(s, l.k);
    assert SnapOk(s.db.tasks, s.claims[l.k].snap) && RowOk(id, s.db.tasks[id]);
  }

  lemma CancelWriteOk(s: Sys, client: string, i: nat, id: nat)
    requires SettledInv(s) && Enabled(s, Cancel(client, i)) && id in s.db.tasks
    ensures SettledWrite(s.db.tasks[id], Held(s, id), WriteTo(s, Cancel(client, i), s.db.tasks[id]))
  {
    assert RowOk(id, s.db.tasks[id]);
    if s.db.tasks[i].status == Pending {
      PendingHeldIsLocked(s, i);
    }
  }

  lemma WatchWriteOk(s: Sys, l: Label, id: nat)
    requires RowsOk(s.db.tasks, s.db.nextId) && Enabled(s, l) && SettledStep(s, l) && id in s.db.tasks && l.WatchFail?
    ensures SettledWrite(s.db.tasks[id], Held(s, id), WriteTo(s, l, s.db.tasks[id]))
  {
    assert RowOk(id, s.db.tasks[id]);
  }

  lemma OtherWriteOk(s: Sys, l: Label, r: Task, held: bool)
    requires Enabled(s, l) && !(l.Start? || l.Complete? || l.Fail? || l.Cancel? || l.WatchFail?)
    ensures SettledWrite(r, held, WriteTo(s, l, r))
  {
  }

  lemma SettledWriteOk(s: Sys, l: Label, id: nat)
    requires SettledInv(s) && Enabled(s, l) && SettledStep(s, l) && id in s.db.tasks
    ensures var r := s.db.tasks[id]; WriteOk(r, WriteTo(s, l, r)) && SettledWrite(r, Held(s, id), WriteTo(s, l, r))
  {
    WriteToOk(s, l, id);
    if l.Start? || l.Complete? || l.Fail? {
      HolderWriteOk(s, l, id);
    } else if l.Cancel? {
      CancelWriteOk(s, l.client, l.id, id);
    } else if l.WatchFail? {
      WatchWriteOk(s, l, id);
    } else {
      OtherWriteOk(s, l, s.db.tasks[id], Held(s, id));
    }
  }

  /** A task becomes held only by a new lock. */
  lemma HeldOrigin(s: Sys, l: Label, id: nat)
    requires Base(s) && Enabled(s, l) && HeldIn(ClaimsAfter(s, l), id)
    ensures Held(s, id) || (l.LockRow? && l.id == id)
  {
    var k :| k in ClaimsAfter(s, l) && ClaimsAfter(s, l)[k].snap.id == id;
    ClaimOrigin(s, l, k);
    if l.LockRow? && k == s.nextClaim {
      assert RowOk(l.id, s.db.tasks[l.id]);
    }
  }

  lemma LedgerDo(r: Task, y: Tally, letters: nat, held: bool, w: Write, aborted: bool, held': bool)
    requires LedgerOk(r, y, letters, held) && WriteOk(r, w) && SettledWrite(r, held, w)
    requires held' ==> held || r.status == Pending
    requires held' && w.Abandon? ==> held
    ensures LedgerOk(Do(r, w), Counted(y, w, aborted),
                     letters + (if w.FailAs? && !HasRetriesLeft(w.snap) then 1 else 0), held')
  {
  }

  lemma LedgerStep(s: Sys, l: Label, id: nat)
    requires SettledInv(s) && Enabled(s, l) && SettledStep(s, l) && id in s.db.tasks
    ensures LedgerOk(RowAfter(s.db.tasks[id], s, l), Counted(s.tally[id], WriteTo(s, l, s.db.tasks[id]), Aborts(s, l, id)),
                     DeadCount(DeadWrites(s, l), id), HeldIn(ClaimsAfter(s, l), id))
  {
    var r, held' := s.db.tasks[id], HeldIn(ClaimsAfter(s, l), id);
    SettledWriteOk(s, l, id);
    HeldAfterOk(s, l, id);
    LetterCounted(s, l, id);
    LedgerDo(r, s.tally[id], DeadCount(s.db.dead, id), Held(s, id), WriteTo(s, l, r), Aborts(s, l, id), held');
  }

  lemma HeldAfterOk(s: Sys, l: Label, id: nat)
    requires Base(s) && Enabled(s, l) && id in s.db.tasks
    ensures s.db.tasks[id].id == id
    ensures HeldIn(ClaimsAfter(s, l), id) ==>
              (Held(s, id) || s.db.tasks[id].status == Pending) && (WriteTo(s, l, s.db.tasks[id]).Abandon? ==> Held(s, id))
  {
    assert RowOk(id, s.db.tasks[id]);
    if HeldIn(ClaimsAfter(s, l), id) {
      HeldOrigin(s, l, id);
    }
  }

  lemma NoLetters(tasks: map<nat, Task>, dead: seq<DeadLetter>, id: nat)
    requires forall i | 0 <= i < |dead| :: dead[i].taskId in tasks
    requires id !in tasks
    ensures DeadCount(dead, id) == 0
  {
  }

  lemma CreatedLedger(s: Sys, l: Label)
    requires SettledInv(s) && Enabled(s, l) && l.Create?
    ensures LedgerOk(NewRow(s.db.nextId, l.client, l.input, s.clock), Tally(0, 0, 0, 0), DeadCount(s.db.dead, s.db.nextId), Held(s, s.db.nextId))
  {
    forall i | 0 <= i < |s.db.dead| ensures s.db.dead[i].taskId in s.db.tasks {
      assert LetterOk(s.db.tasks, s.db.dead[i]);
    }
    NoLetters(s.db.tasks, s.db.dead, s.db.nextId);
  }

  lemma LedgersStep(s: Sys, l: Label)
    requires SettledInv(s) && Enabled(s, l) && SettledStep(s, l)
    ensures LedgersOk(RowWrites(s.db.tasks, s, l), TallyAfter(s, l), DeadWrites(s, l), ClaimsAfter(s, l))
  {
    CountsStep(s, l);
    if l.Create? {
      CreatedLedger(s, l);
    }
    forall id | id in s.db.tasks ensures OldLedger(s, l, id) {
      OldLedgerStep(s, l, id);
    }
  }

  ghost predicate OldLedger(s: Sys, l: Label, id: nat)
    requires Enabled(s, l)
  {
    && id in RowWrites(s.db.tasks, s, l) && id in TallyAfter(s, l)
    && LedgerOk(RowWrites(s.db.tasks, s, l)[id], TallyAfter(s, l)[id], DeadCount(DeadWrites(s, l), id), HeldIn(ClaimsAfter(s, l), id))
  }

  lemma OldLedgerStep(s: Sys, l: Label, id: nat)
    requires SettledInv(s) && Enabled(s, l) && SettledStep(s, l) && id in s.db.tasks
    ensures OldLedger(s, l, id)
  {
    RowKept(s, l, id);
    assert RowOk(id, s.db.tasks[id]);
    assert id in s.tally;
    TallyKept(s, l, id);
    LedgerStep(s, l, id);
  }

  lemma TallyKept(s: Sys, l: Label, id: nat)
    requires Enabled(s, l) && id in s.db.tasks && id in s.tally && id != s.db.nextId
    ensures id in TallyAfter(s, l) && TallyAfter(s, l)[id] == Counted(s.tally[id], WriteTo(s, l, s.db.tasks[id]), Aborts(s, l, id))
  {
  }

  // ---------------------------------------------------------------- dead letters

  /** Nothing touches a completed or a failed row. */
  lemma FinishedKeeps(s: Sys, l: Label, id: nat)
    requires SettledInv(s) && Enabled(s, l) && SettledStep(s, l) && id in s.db.tasks
    requires s.db.tasks[id].status in {Completed, Failed}
    ensures WriteTo(s, l, s.db.tasks[id]) == Keep
  {
    SettledWriteOk(s, l, id);
  }

  lemma OldLetterAgrees(s: Sys, l: Label, e: DeadLetter)
    requires SettledInv(s) && Enabled(s, l) && SettledStep(s, l) && LetterAgrees(s.db.tasks, e)
    ensures LetterAgrees(RowWrites(s.db.tasks, s, l), e)
  {
    FinishedKeeps(s, l, e.taskId);
    RowKept(s, l, e.taskId);
  }

  lemma LettersAgreeStep(s: Sys, l: Label)
    requires SettledInv(s) && Enabled(s, l) && SettledStep(s, l)
    ensures LettersAgree(RowWrites(s.db.tasks, s, l), DeadWrites(s, l))
  {
    forall i | 0 <= i < |s.db.dead| ensures LetterAgrees(RowWrites(s.db.tasks, s, l), s.db.dead[i]) {
      OldLetterAgrees(s, l, s.db.dead[i]);
    }
    if (l.Fail? || l.WatchFail?) && !HasRetriesLeft(Failing(s, l)) {
      NewLetterOk(s, l);
      NewLetterAgrees(s, l);
    } else {
      NoNewLetter(s, l);
    }
  }

  lemma NewLetterAgrees(s: Sys, l: Label)
    requires SettledInv(s) && Enabled(s, l) && SettledStep(s, l)
    requires (l.Fail? || l.WatchFail?) && !HasRetriesLeft(Failing(s, l))
    ensures LetterAgrees(RowWrites(s.db.tasks, s, l), Letter(Failing(s, l), l.err, s.clock))
  {
    var id := Failing(s, l).id;
    FailingOk(s, l);
    RowKept(s, l, id);
    FailsAs(s, l, s.db.tasks[id]);
    FailedOwner(s, l);
    assert RowOk(id, s.db.tasks[id]);
    LetterFits(s.db.tasks[id], Failing(s, l), l.err, s.clock);
  }

  /** A failure is recorded of a row that names the same instance as the snapshot. */
  lemma FailedOwner(s: Sys, l: Label)
    requires SettledInv(s) && Enabled(s, l) && SettledStep(s, l) && (l.Fail? || l.WatchFail?)
    ensures var id := Failing(s, l).id; id in s.db.tasks && s.db.tasks[id].processedBy == Failing(s, l).processedBy
    ensures var id := Failing(s, l).id; WriteTo(s, l, s.db.tasks[id]) == FailAs(Failing(s, l), l.err, s.clock)
  {
    if l.Fail? {
      HeldBy(s, l.k);
    }
    assert RowOk(Failing(s, l).id, s.db.tasks[Failing(s, l).id]);
  }

  lemma LetterFits(r: Task, snap: Task, err: string, clock: int)
    requires !HasRetriesLeft(snap) && r.id == snap.id && r.processedBy == snap.processedBy
    ensures LetterAgrees(map[r.id := Do(r, FailAs(snap, err, clock))], Letter(snap, err, clock))
  {
  }

  lemma NamesStep(s: Sys, l: Label)
    requires NamesUnique(s.procs) && Enabled(s, l) && SettledStep(s, l)
    ensures NamesUnique(ProcsAfter(s, l))
  {
  }

  lemma SettledInvStep(s: Sys, l: Label)
    requires SettledInv(s) && Enabled(s, l) && SettledStep(s, l)
    ensures SettledInv(Apply(s, l))
  {
    BaseStep(s, l);
    SettledIsSafe(s, l);
    CoherentKept(s, l);
    NamesStep(s, l);
    LedgersStep(s, l);
    LettersAgreeStep(s, l);
  }

  lemma {:induction false} SettledInvRun(states: seq<Sys>, labels: seq<Label>, i: nat)
    requires SettledRun(states, labels) && i < |states|
    ensures SettledInv(states[i])
  {
    if i > 0 {
      SettledInvRun(states, labels, i - 1);
      RunStep(states, labels, i);
      SettledInvStep(states[i - 1], labels[i - 1]);
    }
  }

  lemma RunStep(states: seq<Sys>, labels: seq<Label>, i: nat)
    requires SettledRun(states, labels) && 0 < i < |states|
    ensures var s, l := states[i - 1], labels[i - 1]; Enabled(s, l) && SettledStep(s, l) && states[i] == Apply(s, l)
  {
    assert Steps(states[i - 1], labels[i - 1], states[i - 1 + 1]);
  }
}
