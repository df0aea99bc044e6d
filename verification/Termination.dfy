/** In the settled regime every step that touches a task brings it nearer to its end, except that
    a startup requeue or an abandoned claim transaction sends it back to the queue. So the number
    of steps that touch a task is bounded, by a number that only its retry limit, its requeues
    and its aborted claims enter. */
module Termination {
  import opened Tasks
  import opened Protocol
  import opened Unconditional
  import opened Coherence
  import opened Settled
  import opened Outcomes

  const ATTEMPT := 13   // more than any rank, so that a retry always pays

  /** The claim of a task, if it is held. There is at most one in a coherent state. */
  ghost function HolderOf(claims: map<nat, Claim>, id: nat): Option<Stage> {
    if HeldIn(claims, id) then
      var k :| k in claims && claims[k].snap.id == id;
      Some(claims[k].stage)
    else None
  }

  lemma HolderIs(claims: map<nat, Claim>, k: nat)
    requires HeldOnce(claims) && k in claims
    ensures HolderOf(claims, claims[k].snap.id) == Some(claims[k].stage)
  {
    assert HeldIn(claims, claims[k].snap.id);
  }

  /** How far a task still is from its end within one attempt. */
  function Rank(status: Status, holder: Option<Stage>): nat {
    match status
    case Pending => if holder == Some(Locked) then 11 else 12
    case Running => 2 * Distance(holder)
    case Cancelled => 2 * Distance(holder) - 1
    case _ => 0
  }

  function Distance(holder: Option<Stage>): (d: nat)
    ensures 1 <= d <= 5
  {
    match holder
    case Some(InHand) => 5
    case Some(Queued) => 4
    case Some(Picked) => 3
    case Some(Started) => 2
    case _ => 1
  }

  function Measure(r: Task, holder: Option<Stage>): int {
    ATTEMPT * (r.maxRetries - r.retryCount) + Rank(r.status, holder)
  }

  /** What another part of the system could see of the task. */
  ghost function View(s: Sys, id: nat): (Task, Option<Stage>)
    requires id in s.db.tasks
  {
    (s.db.tasks[id], HolderOf(s.claims, id))
  }

  // ---------------------------------------------------------------- the moves of one task

  predicate Working(r: Task, h: Option<Stage>) {
    r.status in {Running, Cancelled} && h.Some? && !h.value.Locked?
  }

  /** Everything one settled step can do to a row (write w) and to its holder (from h to h'). */
  predicate Move(r: Task, h: Option<Stage>, w: Write, h': Option<Stage>, aborted: bool) {
    || (w.Keep? && h' == h)
    || (w.Keep? && r.status == Pending && h == None && h' == Some(Locked))
    || (w.TakeBy? && r.status == Pending && h == Some(Locked) && h' == Some(InHand))
    || (w.Keep? && r.status == Pending && h == Some(Locked) && h' == None && aborted)
    || ((w.Keep? || w.Begin?) && Working(r, h) && h'.Some? && !h'.value.Locked? && Distance(h') < Distance(h))
    || (w.Keep? && Working(r, h) && h' == None)
    || (w.Finish? && Working(r, h) && h' == None)
    || (w.FailAs? && w.snap.retryCount == r.retryCount && h' == None && (Working(r, h) || (r.status == Running && h == None)))
    || (w.Abandon? && h' == h && (r.status == Running || (r.status == Pending && h == None)))
    || (w.Requeue? && r.status == Running && h == None && h' == None)
  }

  /** Every move that shows brings the measure down by one at least, but for the price of a
      requeue or of an aborted claim. */
  lemma MoveDescends(r: Task, h: Option<Stage>, w: Write, h': Option<Stage>, aborted: bool)
    requires Move(r, h, w, h', aborted)
    requires (Do(r, w), h') != (r, h)
    ensures Measure(Do(r, w), h') < Measure(r, h) + (if w.Requeue? then 11 else 0) + (if aborted then 2 else 0)
  {
  }

  // ---------------------------------------------------------------- how the holder of a task changes

  predicate ActsOn(l: Label, k: nat) {
    l == Commit(k) || l == Rollback(k) || l == Submit(k) || l == Pickup(k) || (l.Start? && l.k == k)
    || l == Complete(k) || (l.Fail? && l.k == k) || l == Drop(k)
  }

  lemma HolderGone(s: Sys, l: Label, k: nat)
    requires Base(s) && HeldOnce(s.claims) && Enabled(s, l) && k in s.claims && k !in ClaimsAfter(s, l) && !l.LockRow?
    ensures HolderOf(ClaimsAfter(s, l), s.claims[k].snap.id) == None
  {
    var id := s.claims[k].snap.id;
    if j :| j in ClaimsAfter(s, l) && ClaimsAfter(s, l)[j].snap.id == id {
      ClaimOrigin(s, l, j);
    }
  }

  lemma ClaimUntouched(s: Sys, l: Label, k: nat)
    requires Enabled(s, l) && k in s.claims && k < s.nextClaim && !ActsOn(l, k) && l != Crash(s.claims[k].pid)
    ensures k in ClaimsAfter(s, l) && ClaimsAfter(s, l)[k] == s.claims[k]
  {
  }

  lemma SameHolder(claims: map<nat, Claim>, claims': map<nat, Claim>, id: nat)
    requires HeldOnce(claims) && HeldOnce(claims')
    requires forall k | k in claims && claims[k].snap.id == id :: k in claims' && claims'[k] == claims[k]
    requires HeldIn(claims', id) ==> HeldIn(claims, id)
    ensures HolderOf(claims', id) == HolderOf(claims, id)
  {
    if k :| k in claims && claims[k].snap.id == id {
      HolderIs(claims, k);
      HolderIs(claims', k);
    }
  }

  lemma HolderUnchanged(s: Sys, l: Label, id: nat)
    requires SettledInv(s) && Enabled(s, l) && !(l.LockRow? && l.id == id)
    requires forall k | k in s.claims && s.claims[k].snap.id == id :: !ActsOn(l, k) && l != Crash(s.claims[k].pid)
    ensures HolderOf(ClaimsAfter(s, l), id) == HolderOf(s.claims, id)
  {
    HeldOnceKept(s, l);
    if HeldIn(ClaimsAfter(s, l), id) {
      HeldOrigin(s, l, id);
    }
    forall k | k in s.claims && s.claims[k].snap.id == id ensures k in ClaimsAfter(s, l) && ClaimsAfter(s, l)[k] == s.claims[k] {
      assert SnapOk(s.db.tasks, s.claims[k].snap);
      ClaimUntouched(s, l, k);
    }
    SameHolder(s.claims, ClaimsAfter(s, l), id);
  }

  ghost predicate MoveIn(s: Sys, l: Label, id: nat)
    requires Enabled(s, l) && id in s.db.tasks
  {
    Move(s.db.tasks[id], HolderOf(s.claims, id), WriteTo(s, l, s.db.tasks[id]), HolderOf(ClaimsAfter(s, l), id), Aborts(s, l, id))
  }

  lemma HolderRow(s: Sys, k: nat)
    requires SettledInv(s) && k in s.claims
    ensures var id := s.claims[k].snap.id;
            && id in s.db.tasks && s.db.tasks[id].id == id
            && HolderOf(s.claims, id) == Some(s.claims[k].stage)
            && s.claims[k].snap.retryCount == s.db.tasks[id].retryCount
            && (if s.claims[k].stage.Locked? then s.db.tasks[id].status == Pending else Working(s.db.tasks[id], Some(s.claims[k].stage)))
  {
    assert HolderOk(s.db.tasks, s.procs, s.claims[k]);
    assert s.claims[k].stage.Locked? ==> IsLock(s.claims, k);
    assert RowOk(s.claims[k].snap.id, s.db.tasks[s.claims[k].snap.id]);
    HolderIs(s.claims, k);
  }

  /** The claim a step acts on moves one stage on ... */
  lemma AdvanceMove(s: Sys, l: Label, k: nat)
    requires SettledInv(s) && Enabled(s, l) && k in s.claims && (l == Commit(k) || l == Submit(k) || l == Pickup(k) || (l.Start? && l.k == k))
    ensures s.claims[k].snap.id in s.db.tasks && MoveIn(s, l, s.claims[k].snap.id)
  {
    HolderRow(s, k);
    HeldOnceKept(s, l);
    Advanced(s, l, k);
    HolderIs(ClaimsAfter(s, l), k);
  }

  lemma Advanced(s: Sys, l: Label, k: nat)
    requires Enabled(s, l) && k in s.claims && (l == Commit(k) || l == Submit(k) || l == Pickup(k) || (l.Start? && l.k == k))
    ensures var claims' := ClaimsAfter(s, l);
            && k in claims' && claims'[k].snap.id == s.claims[k].snap.id
            && if l.Commit? then s.claims[k].stage.Locked? && claims'[k].stage.InHand?
               else !s.claims[k].stage.Locked? && !claims'[k].stage.Locked?
                    && Distance(Some(claims'[k].stage)) < Distance(Some(s.claims[k].stage))
  {
  }

  /** ... or ends. */
  lemma EndMove(s: Sys, l: Label, k: nat)
    requires SettledInv(s) && Enabled(s, l) && k in s.claims
    requires l == Rollback(k) || l == Complete(k) || (l.Fail? && l.k == k) || l == Drop(k)
    ensures s.claims[k].snap.id in s.db.tasks && MoveIn(s, l, s.claims[k].snap.id)
  {
    HolderRow(s, k);
    HolderGone(s, l, k);
  }

  lemma CrashMove(s: Sys, l: Label, k: nat)
    requires SettledInv(s) && Enabled(s, l) && k in s.claims && l == Crash(s.claims[k].pid)
    ensures s.claims[k].snap.id in s.db.tasks && MoveIn(s, l, s.claims[k].snap.id)
  {
    HolderRow(s, k);
    HolderGone(s, l, k);
  }

  lemma LockMove(s: Sys, l: Label)
    requires SettledInv(s) && Enabled(s, l) && l.LockRow?
    ensures MoveIn(s, l, l.id)
  {
    LockableIsFree(s, l);
    assert RowOk(l.id, s.db.tasks[l.id]);
    HeldOnceKept(s, l);
    HolderIs(ClaimsAfter(s, l), s.nextClaim);
  }

  lemma UnheldMove(r: Task, h: Option<Stage>, w: Write, aborted: bool)
    requires WriteOk(r, w) && SettledWrite(r, h.Some?, w)
    requires w.TakeBy? || w.Begin? || w.Finish? ==> false
    requires w.FailAs? || w.Requeue? ==> h == None && r.status == Running
    requires w.Abandon? && h.Some? ==> r.status == Running
    ensures Move(r, h, w, h, aborted)
  {
  }

  /** A step that leaves the holder of a task alone. */
  lemma OtherMove(s: Sys, l: Label, id: nat)
    requires SettledInv(s) && Enabled(s, l) && SettledStep(s, l) && id in s.db.tasks && !(l.LockRow? && l.id == id)
    requires forall k | k in s.claims && s.claims[k].snap.id == id :: !ActsOn(l, k) && l != Crash(s.claims[k].pid)
    ensures MoveIn(s, l, id)
  {
    HolderUnchanged(s, l, id);
    SettledWriteOk(s, l, id);
    OtherWrite(s, l, id);
    UnheldMove(s.db.tasks[id], HolderOf(s.claims, id), WriteTo(s, l, s.db.tasks[id]), Aborts(s, l, id));
  }

  lemma OtherWrite(s: Sys, l: Label, id: nat)
    requires SettledInv(s) && Enabled(s, l) && SettledStep(s, l) && id in s.db.tasks
    requires forall k | k in s.claims && s.claims[k].snap.id == id :: !ActsOn(l, k)
    ensures var w, r := WriteTo(s, l, s.db.tasks[id]), s.db.tasks[id];
            && !w.TakeBy? && !w.Begin? && !w.Finish?
            && (w.FailAs? || w.Requeue? ==> HolderOf(s.claims, id) == None && r.status == Running)
            && HolderOf(s.claims, id).Some? == Held(s, id)
  {
    assert RowOk(id, s.db.tasks[id]);
    NotByHolder(s, l, s.db.tasks[id]);
    if l.Spawn? && Held(s, id) {
      SpawnSparesHeld(s, l, id);
    }
  }

  /** A write that is not a holder's is a watchdog's, a recovery's or a client's. */
  lemma NotByHolder(s: Sys, l: Label, r: Task)
    requires Enabled(s, l) && forall k | k in s.claims && s.claims[k].snap.id == r.id :: !ActsOn(l, k)
    ensures var w := WriteTo(s, l, r);
            && !w.TakeBy? && !w.Begin? && !w.Finish?
            && (w.FailAs? ==> l.WatchFail? && l.snap.id == r.id) && (w.Requeue? ==> l.Spawn? && r.status == Running)
  {
  }

  lemma SpawnSparesHeld(s: Sys, l: Label, id: nat)
    requires SettledInv(s) && Enabled(s, l) && SettledStep(s, l) && l.Spawn? && id in s.db.tasks && Held(s, id)
    ensures WriteTo(s, l, s.db.tasks[id]) == Keep
  {
    var k :| k in s.claims && s.claims[k].snap.id == id;
    assert HolderOk(s.db.tasks, s.procs, s.claims[k]);
    assert s.claims[k].stage.Locked? ==> IsLock(s.claims, k);
  }

  lemma HolderMove(s: Sys, l: Label, k: nat)
    requires SettledInv(s) && Enabled(s, l) && k in s.claims && (ActsOn(l, k) || l == Crash(s.claims[k].pid))
    ensures s.claims[k].snap.id in s.db.tasks && MoveIn(s, l, s.claims[k].snap.id)
  {
    if l == Commit(k) || l == Submit(k) || l == Pickup(k) || (l.Start? && l.k == k) {
      AdvanceMove(s, l, k);
    } else if l == Crash(s.claims[k].pid) {
      CrashMove(s, l, k);
    } else {
      EndMove(s, l, k);
    }
  }

  lemma Moves(s: Sys, l: Label, id: nat)
    requires SettledInv(s) && Enabled(s, l) && SettledStep(s, l) && id in s.db.tasks
    ensures MoveIn(s, l, id)
  {
    if l.LockRow? && l.id == id {
      LockMove(s, l);
    } else if k :| k in s.claims && s.claims[k].snap.id == id && (ActsOn(l, k) || l == Crash(s.claims[k].pid)) {
      HolderMove(s, l, k);
    } else {
      OtherMove(s, l, id);
    }
  }

  // ---------------------------------------------------------------- steps and runs

  /** What a task may have cost so far, in steps that touch it. */
  function Allowance(r: Task, h: Option<Stage>, y: Tally): int {
    ATTEMPT * r.maxRetries + 12 + 11 * y.requeues + 2 * y.aborts - Measure(r, h)
  }

  ghost function Budget(s: Sys, id: nat): int
    requires id in s.db.tasks && id in s.tally
  {
    Allowance(s.db.tasks[id], HolderOf(s.claims, id), s.tally[id])
  }

  lemma MovePaid(r: Task, h: Option<Stage>, w: Write, h': Option<Stage>, y: Tally, aborted: bool)
    requires Move(r, h, w, h', aborted)
    ensures Allowance(Do(r, w), h', Counted(y, w, aborted)) >= Allowance(r, h, y) + (if (Do(r, w), h') != (r, h) then 1 else 0)
  {
    assert Do(r, w).maxRetries == r.maxRetries;
    if (Do(r, w), h') != (r, h) {
      MoveDescends(r, h, w, h', aborted);
    }
  }

  lemma BudgetPaid(s: Sys, l: Label, id: nat)
    requires SettledInv(s) && Enabled(s, l) && SettledStep(s, l) && id in s.db.tasks && id in s.tally
    ensures var r, w := s.db.tasks[id], WriteTo(s, l, s.db.tasks[id]);
            var h, h' := HolderOf(s.claims, id), HolderOf(ClaimsAfter(s, l), id);
            Allowance(Do(r, w), h', Counted(s.tally[id], w, Aborts(s, l, id))) >=
              Allowance(r, h, s.tally[id]) + (if (Do(r, w), h') != (r, h) then 1 else 0)
  {
    Moves(s, l, id);
    MovePaid(s.db.tasks[id], HolderOf(s.claims, id), WriteTo(s, l, s.db.tasks[id]), HolderOf(ClaimsAfter(s, l), id), s.tally[id], Aborts(s, l, id));
  }

  lemma BudgetStep(s: Sys, l: Label, id: nat)
    requires SettledInv(s) && Enabled(s, l) && SettledStep(s, l) && id in s.db.tasks
    ensures var s' := Apply(s, l);
            && id in s'.db.tasks && id in s.tally && id in s'.tally
            && Budget(s', id) >= Budget(s, id) + (if View(s', id) != View(s, id) then 1 else 0)
  {
    RowKept(s, l, id);
    TallyCounted(s, l, id);
    BudgetPaid(s, l, id);
  }

  lemma TallyCounted(s: Sys, l: Label, id: nat)
    requires Base(s) && Enabled(s, l) && id in s.db.tasks
    ensures id in s.tally && id in TallyAfter(s, l)
    ensures TallyAfter(s, l)[id] == Counted(s.tally[id], WriteTo(s, l, s.db.tasks[id]), Aborts(s, l, id))
  {
    assert RowOk(id, s.db.tasks[id]);
  }

  lemma BudgetAtCreation(s: Sys, l: Label, id: nat)
    requires SettledInv(s) && Enabled(s, l) && SettledStep(s, l) && id !in s.db.tasks && id in Apply(s, l).db.tasks
    ensures var s' := Apply(s, l); id in s'.tally && Budget(s', id) == 0
  {
    forall k | k in s.claims ensures s.claims[k].snap.id != id {
      assert SnapOk(s.db.tasks, s.claims[k].snap);
    }
    assert !HeldIn(ClaimsAfter(s, l), id);
  }

  /** How many of the first n steps of a run changed the row of a task or its holder. */
  ghost function Touches(states: seq<Sys>, id: nat, n: nat): nat
    requires n < |states|
  {
    if n == 0 then 0
    else Touches(states, id, n - 1) +
         (if id in states[n - 1].db.tasks && id in states[n].db.tasks && View(states[n], id) != View(states[n - 1], id) then 1 else 0)
  }

  lemma {:induction false} TouchesWithinBudget(states: seq<Sys>, labels: seq<Label>, id: nat, n: nat)
    requires SettledRun(states, labels) && n < |states|
    ensures id !in states[n].db.tasks ==> Touches(states, id, n) == 0
    ensures id in states[n].db.tasks ==> id in states[n].tally && Touches(states, id, n) <= Budget(states[n], id)
  {
    if n > 0 {
      TouchesWithinBudget(states, labels, id, n - 1);
      SettledInvRun(states, labels, n - 1);
      RunStep(states, labels, n);
      if id in states[n - 1].db.tasks {
        BudgetStep(states[n - 1], labels[n - 1], id);
      } else if id in states[n].db.tasks {
        BudgetAtCreation(states[n - 1], labels[n - 1], id);
      }
    }
  }

  /** A computable bound on the steps that can ever touch a task. */
  lemma BoundedWork(states: seq<Sys>, labels: seq<Label>, id: nat, n: nat)
    requires SettledRun(states, labels) && n < |states| && id in states[n].db.tasks
    ensures id in states[n].tally
    ensures var r, y := states[n].db.tasks[id], states[n].tally[id];
            Touches(states, id, n) <= 13 * r.maxRetries + 12 + 11 * y.requeues + 2 * y.aborts
  {
    TouchesWithinBudget(states, labels, id, n);
    SettledInvRun(states, labels, n);
    assert RowOk(id, states[n].db.tasks[id]);
  }

  // ---------------------------------------------------------------- what the requeues and aborts come from

  predicate IsSpawn(l: Label) {
    l.Spawn?
  }

  /** A claim transaction fails, or a process dies. */
  predicate IsLoss(l: Label) {
    l.Rollback? || l.Crash?
  }

  function Count(labels: seq<Label>, p: Label -> bool, n: nat): nat
    requires n <= |labels|
  {
    if n == 0 then 0 else Count(labels, p, n - 1) + (if p(labels[n - 1]) then 1 else 0)
  }

  lemma TallyStep(s: Sys, l: Label, id: nat)
    requires Base(s) && Enabled(s, l) && id in s.db.tasks
    ensures id in s.tally && id in TallyAfter(s, l)
    ensures TallyAfter(s, l)[id].requeues <= s.tally[id].requeues + (if l.Spawn? then 1 else 0)
    ensures TallyAfter(s, l)[id].aborts <= s.tally[id].aborts + (if IsLoss(l) then 1 else 0)
  {
    TallyCounted(s, l, id);
  }

  /** A task is requeued at most once for each process started, and loses a claim transaction at most
      once for each that failed and each process that died. */
  lemma {:induction false} TallyBounded(states: seq<Sys>, labels: seq<Label>, id: nat, n: nat)
    requires Run(states, labels) && n < |states| && id in states[n].db.tasks
    ensures id in states[n].tally
    ensures states[n].tally[id].requeues <= Count(labels, IsSpawn, n)
    ensures states[n].tally[id].aborts <= Count(labels, IsLoss, n)
  {
    if n > 0 {
      BaseRun(states, labels, n - 1);
      assert Steps(states[n - 1], labels[n - 1], states[n - 1 + 1]);
      if id in states[n - 1].db.tasks {
        TallyBounded(states, labels, id, n - 1);
        TallyStep(states[n - 1], labels[n - 1], id);
      } else {
        NewTally(states[n - 1], labels[n - 1], id);
      }
    }
  }

  lemma NewTally(s: Sys, l: Label, id: nat)
    requires Base(s) && Enabled(s, l) && id !in s.db.tasks && id in RowWrites(s.db.tasks, s, l)
    ensures id in TallyAfter(s, l) && TallyAfter(s, l)[id] == Tally(0, 0, 0, 0)
  {
  }

  /** The bound in terms of what happened to processes and transactions, and not to the task. */
  lemma BoundedByFaults(states: seq<Sys>, labels: seq<Label>, id: nat, n: nat)
    requires SettledRun(states, labels) && n < |states| && id in states[n].db.tasks
    ensures Touches(states, id, n) <=
              13 * states[n].db.tasks[id].maxRetries + 12 + 11 * Count(labels, IsSpawn, n) + 2 * Count(labels, IsLoss, n)
  {
    BoundedWork(states, labels, id, n);
    TallyBounded(states, labels, id, n);
  }

  // ---------------------------------------------------------------- changes of the row

  /** The measure as the row alone shows it: an open claim transaction makes no difference. */
  function RowMeasure(r: Task, h: Option<Stage>): int {
    ATTEMPT * (r.maxRetries - r.retryCount) + (if r.status == Pending then 12 else Rank(r.status, h))
  }

  lemma MoveRow(r: Task, h: Option<Stage>, w: Write, h': Option<Stage>, aborted: bool)
    requires Move(r, h, w, h', aborted)
    ensures Do(r, w).maxRetries == r.maxRetries
    ensures RowMeasure(Do(r, w), h') + (if Do(r, w) != r then 1 else 0) <= RowMeasure(r, h) + (if w.Requeue? then 11 else 0)
  {
  }

  function RowAllowance(r: Task, h: Option<Stage>, requeues: nat): int {
    ATTEMPT * r.maxRetries + 12 + 11 * requeues - RowMeasure(r, h)
  }

  lemma RowBudgetStep(s: Sys, l: Label, id: nat)
    requires SettledInv(s) && Enabled(s, l) && SettledStep(s, l) && id in s.db.tasks && id in s.tally
    ensures var r, r' := s.db.tasks[id], RowAfter(s.db.tasks[id], s, l);
            var w := WriteTo(s, l, r);
            RowAllowance(r', HolderOf(ClaimsAfter(s, l), id), s.tally[id].requeues + (if w.Requeue? then 1 else 0)) >=
              RowAllowance(r, HolderOf(s.claims, id), s.tally[id].requeues) + (if r' != r then 1 else 0)
  {
    Moves(s, l, id);
    MoveRow(s.db.tasks[id], HolderOf(s.claims, id), WriteTo(s, l, s.db.tasks[id]), HolderOf(ClaimsAfter(s, l), id), Aborts(s, l, id));
  }

  /** How many of the first n steps changed the row of a task. */
  ghost function Changes(states: seq<Sys>, id: nat, n: nat): nat
    requires n < |states|
  {
    if n == 0 then 0
    else Changes(states, id, n - 1) +
         (if id in states[n - 1].db.tasks && id in states[n].db.tasks && states[n].db.tasks[id] != states[n - 1].db.tasks[id] then 1 else 0)
  }

  ghost function RowBudget(s: Sys, id: nat): int
    requires id in s.db.tasks && id in s.tally
  {
    RowAllowance(s.db.tasks[id], HolderOf(s.claims, id), s.tally[id].requeues)
  }

  lemma RowBudgetNext(s: Sys, l: Label, id: nat)
    requires SettledInv(s) && Enabled(s, l) && SettledStep(s, l) && id in s.db.tasks
    ensures var s' := Apply(s, l);
            && id in s'.db.tasks && id in s.tally && id in s'.tally
            && RowBudget(s', id) >= RowBudget(s, id) + (if s'.db.tasks[id] != s.db.tasks[id] then 1 else 0)
  {
    TallyCounted(s, l, id);
    RowKept(s, l, id);
    RowBudgetStep(s, l, id);
  }

  lemma RowBudgetNew(s: Sys, l: Label, id: nat)
    requires SettledInv(s) && Enabled(s, l) && SettledStep(s, l) && id !in s.db.tasks && id in Apply(s, l).db.tasks
    ensures var s' := Apply(s, l); id in s'.tally && RowBudget(s', id) >= 0
  {
    NewTally(s, l, id);
  }

  lemma {:induction false} ChangesWithinBudget(states: seq<Sys>, labels: seq<Label>, id: nat, n: nat)
    requires SettledRun(states, labels) && n < |states|
    ensures id !in states[n].db.tasks ==> Changes(states, id, n) == 0
    ensures id in states[n].db.tasks ==> id in states[n].tally && Changes(states, id, n) <= RowBudget(states[n], id)
  {
    if n > 0 {
      ChangesWithinBudget(states, labels, id, n - 1);
      SettledInvRun(states, labels, n - 1);
      RunStep(states, labels, n);
      if id in states[n - 1].db.tasks {
        RowBudgetNext(states[n - 1], labels[n - 1], id);
      } else if id in states[n].db.tasks {
        RowBudgetNew(states[n - 1], labels[n - 1], id);
      }
    }
  }

  /** The row of a task changes a bounded number of times, however often its claims are abandoned. */
  lemma BoundedChanges(states: seq<Sys>, labels: seq<Label>, id: nat, n: nat)
    requires SettledRun(states, labels) && n < |states| && id in states[n].db.tasks
    ensures Changes(states, id, n) <= 13 * states[n].db.tasks[id].maxRetries + 12 + 11 * Count(labels, IsSpawn, n)
  {
    ChangesWithinBudget(states, labels, id, n);
    TallyBounded(states, labels, id, n);
    SettledInvRun(states, labels, n);
    assert RowOk(id, states[n].db.tasks[id]);
  }

  // ---------------------------------------------------------------- a task that always fails

  /** How many of the first n steps recorded a failure of the task, by its worker or by a watchdog. */
  ghost function FailedAttempts(states: seq<Sys>, labels: seq<Label>, id: nat, n: nat): nat
    requires |states| == |labels| + 1 && n < |states|
  {
    if n == 0 then 0
    else FailedAttempts(states, labels, id, n - 1) +
         (if Fails(states[n - 1], labels[n - 1], id) then 1 else 0)
  }

  lemma FailureCounted(s: Sys, l: Label, id: nat)
    requires Base(s) && Enabled(s, l) && id in s.db.tasks
    ensures id in s.tally && id in TallyAfter(s, l)
    ensures TallyAfter(s, l)[id].retries + DeadCount(DeadWrites(s, l), id) ==
              Failures(s, id) + (if Fails(s, l, id) then 1 else 0)
  {
    assert RowOk(id, s.db.tasks[id]);
    TallyCounted(s, l, id);
    LetterCounted(s, l, id);
    FailsAs(s, l, s.db.tasks[id]);
  }

  lemma NewIsUnfailed(s: Sys, l: Label, id: nat)
    requires SettledInv(s) && Enabled(s, l) && id !in s.db.tasks && id in RowWrites(s.db.tasks, s, l)
    ensures l.Create? && id == s.db.nextId && DeadCount(DeadWrites(s, l), id) == 0
  {
    CreatedLedger(s, l);
  }

  lemma FailuresNext(s: Sys, l: Label, id: nat)
    requires Base(s) && Enabled(s, l) && id in s.db.tasks
    ensures var s' := Apply(s, l);
            && id in s'.db.tasks && id in s.tally && id in s'.tally
            && Failures(s', id) == Failures(s, id) + (if Fails(s, l, id) then 1 else 0)
  {
    RowKept(s, l, id);
    FailureCounted(s, l, id);
  }

  lemma FailuresNew(s: Sys, l: Label, id: nat)
    requires SettledInv(s) && Enabled(s, l) && id !in s.db.tasks && id in Apply(s, l).db.tasks
    ensures var s' := Apply(s, l); id in s'.tally && Failures(s', id) == 0
  {
    NewIsUnfailed(s, l, id);
    NewTally(s, l, id);
  }

  lemma BothEnds(states: seq<Sys>, labels: seq<Label>, n: nat)
    requires SettledRun(states, labels) && 0 < n < |states|
    ensures SettledInv(states[n - 1]) && SettledInv(states[n])
    ensures Enabled(states[n - 1], labels[n - 1]) && states[n] == Apply(states[n - 1], labels[n - 1])
  {
    SettledInvRun(states, labels, n - 1);
    SettledInvRun(states, labels, n);
    RunStep(states, labels, n);
  }

  lemma FailuresStep(states: seq<Sys>, labels: seq<Label>, id: nat, n: nat)
    requires SettledRun(states, labels) && 0 < n < |states|
    ensures id in states[n].db.tasks ==> id in states[n].tally
    ensures id in states[n - 1].db.tasks ==>
              && id in states[n].db.tasks && id in states[n - 1].tally
              && Failures(states[n], id) == Failures(states[n - 1], id) + (if Fails(states[n - 1], labels[n - 1], id) then 1 else 0)
    ensures id !in states[n - 1].db.tasks && id in states[n].db.tasks ==> Failures(states[n], id) == 0
  {
    BothEnds(states, labels, n);
    if id in states[n - 1].db.tasks {
      FailuresNext(states[n - 1], labels[n - 1], id);
    } else if id in states[n].db.tasks {
      FailuresNew(states[n - 1], labels[n - 1], id);
    }
  }

  /** The row and the dead letters know of all failures so far. */
  ghost predicate KnowsOf(s: Sys, id: nat, failed: nat) {
    if id in s.db.tasks then id in s.tally && failed == Failures(s, id) else failed == 0
  }

  lemma OneMoreKnown(states: seq<Sys>, labels: seq<Label>, id: nat, n: nat, failed: nat)
    requires SettledRun(states, labels) && 0 < n < |states| && KnowsOf(states[n - 1], id, failed)
    ensures KnowsOf(states[n], id, failed + if Fails(states[n - 1], labels[n - 1], id) then 1 else 0)
  {
    FailuresStep(states, labels, id, n);
    BothEnds(states, labels, n);
    UnknownCannotFail(states[n - 1], labels[n - 1], id);
  }

  lemma UnknownCannotFail(s: Sys, l: Label, id: nat)
    requires Base(s) && Enabled(s, l)
    ensures Fails(s, l, id) ==> id in s.db.tasks
  {
    if l.Fail? || l.WatchFail? {
      FailingOk(s, l);
    }
  }

  lemma {:induction false} FailuresAreCounted(states: seq<Sys>, labels: seq<Label>, id: nat, n: nat)
    requires SettledRun(states, labels) && n < |states|
    ensures KnowsOf(states[n], id, FailedAttempts(states, labels, id, n))
  {
    if n > 0 {
      FailuresAreCounted(states, labels, id, n - 1);
      OneMoreKnown(states, labels, id, n, FailedAttempts(states, labels, id, n - 1));
    }
  }

  lemma FailureOutcome(s: Sys, id: nat)
    requires SettledInv(s) && id in s.db.tasks && s.db.tasks[id].status in {Pending, Failed}
    ensures id in s.tally
    ensures var r, failed := s.db.tasks[id], Failures(s, id);
            && failed <= r.maxRetries + 1
            && r.status == (if failed <= r.maxRetries then Pending else Failed)
            && (failed <= r.maxRetries ==> r.retryCount == failed)
  {
    assert RowOk(id, s.db.tasks[id]);
    assert LedgerOk(s.db.tasks[id], s.tally[id], DeadCount(s.db.dead, id), HeldIn(s.claims, id));
  }

  lemma AfterFailure(r: Task, w: Write)
    requires w.FailAs?
    ensures Do(r, w).status in {Pending, Failed}
  {
  }

  lemma FailingLeaves(s: Sys, l: Label, id: nat)
    requires RowsOk(s.db.tasks, s.db.nextId) && Enabled(s, l) && id in s.db.tasks && WriteTo(s, l, s.db.tasks[id]).FailAs?
    ensures id in RowWrites(s.db.tasks, s, l) && RowWrites(s.db.tasks, s, l)[id].status in {Pending, Failed}
  {
    RowKept(s, l, id);
    AfterFailure(s.db.tasks[id], WriteTo(s, l, s.db.tasks[id]));
  }

  /** A task that has failed so often is pending again, or failed for good if that is too often. */
  ghost predicate BackOrFailed(s: Sys, id: nat, failed: nat) {
    && id in s.db.tasks
    && var r := s.db.tasks[id];
    && failed <= r.maxRetries + 1
    && r.status == (if failed <= r.maxRetries then Pending else Failed)
    && (failed <= r.maxRetries ==> r.retryCount == failed)
  }

  lemma FailingStep(s: Sys, l: Label, s': Sys, id: nat)
    requires SettledInv(s) && SettledInv(s') && Fails(s, l, id) && s' == Apply(s, l)
    ensures id in s'.tally && BackOrFailed(s', id, Failures(s', id))
  {
    FailingLeaves(s, l, id);
    FailureOutcome(s', id);
  }

  lemma FailedAt(states: seq<Sys>, labels: seq<Label>, id: nat, n: nat)
    requires SettledRun(states, labels) && 0 < n < |states| && Fails(states[n - 1], labels[n - 1], id)
    ensures id in states[n].tally && BackOrFailed(states[n], id, Failures(states[n], id))
  {
    BothEnds(states, labels, n);
    FailingStep(states[n - 1], labels[n - 1], states[n], id);
  }

  lemma LastFailed(states: seq<Sys>, labels: seq<Label>, id: nat, n: nat)
    requires |states| == |labels| + 1 && 0 < n < |states|
    requires FailedAttempts(states, labels, id, n) > FailedAttempts(states, labels, id, n - 1)
    ensures Fails(states[n - 1], labels[n - 1], id)
  {
  }

  /** A task that hangs or fails every time cannot be requeued for ever: after each failure it is pending
      again while it has failed no more than max_retries times, and failed for good the next time. */
  lemma FailsForGood(states: seq<Sys>, labels: seq<Label>, id: nat, n: nat)
    requires SettledRun(states, labels) && 0 < n < |states|
    requires FailedAttempts(states, labels, id, n) > FailedAttempts(states, labels, id, n - 1)
    ensures BackOrFailed(states[n], id, FailedAttempts(states, labels, id, n))
  {
    LastFailed(states, labels, id, n);
    FailedAt(states, labels, id, n);
    FailuresAreCounted(states, labels, id, n);
  }
}
