/** What the invariants say to someone watching one task over a whole run. */
module Outcomes {
  import opened Tasks
  import opened Protocol
  import opened Unconditional
  import opened Coherence
  import opened Settled

  // ---------------------------------------------------------------- every interleaving

  /** Whatever stale workers and racing watchdogs do: the retry counter stays in range, a row has
      an end time exactly when it has ended, a failed row has a dead letter that carries the
      original submission, and a task is claimed at most once per time it entered the queue. */
  lemma SurvivesStaleActors(states: seq<Sys>, labels: seq<Label>, i: nat, id: nat)
    requires Run(states, labels) && i < |states| && id in states[i].db.tasks
    ensures var s := states[i];
            var r := s.db.tasks[id];
            && id in s.tally
            && 0 <= r.retryCount <= r.maxRetries
            && (r.completedAt == None <==> r.status in {Pending, Running})
            && (r.status == Failed ==> exists e :: e in s.db.dead && e.taskId == id)
            && (forall e | e in s.db.dead && e.taskId == id ::
                  e.retryCount == e.maxRetries == r.maxRetries && e.client == r.client && e.kind == r.kind
                  && e.priority == r.priority && e.payload == r.payload && e.createdAt == r.createdAt)
            && s.tally[id].claims + (if r.status == Pending then 1 else 0) <= 1 + s.tally[id].retries + s.tally[id].requeues
  {
    BaseRun(states, labels, i);
    var s := states[i];
    assert RowOk(id, s.db.tasks[id]) && TallyOk(s.db.tasks[id], s.tally[id]);
    if s.db.tasks[id].status == Failed {
      var j := LetterIndex(s.db.dead, id);
      assert s.db.dead[j] in s.db.dead;
    }
    forall e | e in s.db.dead && e.taskId == id
      ensures e.retryCount == e.maxRetries == s.db.tasks[id].maxRetries && e.client == s.db.tasks[id].client
      ensures e.kind == s.db.tasks[id].kind && e.priority == s.db.tasks[id].priority
      ensures e.payload == s.db.tasks[id].payload && e.createdAt == s.db.tasks[id].createdAt
    {
      var j :| 0 <= j < |s.db.dead| && s.db.dead[j] == e;
      assert LetterOk(s.db.tasks, s.db.dead[j]);
    }
  }

  lemma {:induction false} LetterIndex(dead: seq<DeadLetter>, id: nat) returns (j: nat)
    requires DeadCount(dead, id) >= 1
    ensures j < |dead| && dead[j].taskId == id
  {
    if dead[|dead| - 1].taskId == id {
      j := |dead| - 1;
    } else {
      j := LetterIndex(dead[..|dead| - 1], id);
    }
  }

  lemma {:induction false} TwoLetters(dead: seq<DeadLetter>, id: nat, i: nat, j: nat)
    requires i < j < |dead| && dead[i].taskId == id && dead[j].taskId == id
    ensures DeadCount(dead, id) >= 2
  {
    if j < |dead| - 1 {
      TwoLetters(dead[..|dead| - 1], id, i, j);
    } else {
      OneLetter(dead[..|dead| - 1], id, i);
    }
  }

  lemma {:induction false} OneLetter(dead: seq<DeadLetter>, id: nat, i: nat)
    requires i < |dead| && dead[i].taskId == id
    ensures DeadCount(dead, id) >= 1
  {
    if i < |dead| - 1 {
      OneLetter(dead[..|dead| - 1], id, i);
    }
  }

  // ---------------------------------------------------------------- the settled regime

  /** No two processes, and no two stages of one process, ever hold the same task; and what a
      worker holds is running for it, at the attempt it knows about, unless it was cancelled. */
  lemma HeldByOne(states: seq<Sys>, labels: seq<Label>, i: nat, j: nat, k: nat)
    requires SettledRun(states, labels) && i < |states| && j in states[i].claims && k in states[i].claims
    ensures j != k ==> states[i].claims[j].snap.id != states[i].claims[k].snap.id
    ensures var s, c := states[i], states[i].claims[k];
            && c.snap.id in s.db.tasks && c.pid in s.procs
            && var r := s.db.tasks[c.snap.id];
            && c.snap.retryCount == r.retryCount
            && if c.stage.Locked? then r.status == Pending
               else r.status in {Running, Cancelled} && r.processedBy == Some(s.procs[c.pid].name)
  {
    SettledInvRun(states, labels, i);
    var s := states[i];
    assert HolderOk(s.db.tasks, s.procs, s.claims[k]);
    assert s.claims[k].stage.Locked? ==> IsLock(s.claims, k);
  }

  /** Failed rows and dead letters correspond one to one, and agree on when, why and where. */
  lemma DeadLettersMatch(states: seq<Sys>, labels: seq<Label>, i: nat)
    requires SettledRun(states, labels) && i < |states|
    ensures var s := states[i];
            && (forall id | id in s.db.tasks && s.db.tasks[id].status == Failed ::
                  exists j :: 0 <= j < |s.db.dead| && s.db.dead[j].taskId == id)
            && (forall j | 0 <= j < |s.db.dead| :: LetterAgrees(s.db.tasks, s.db.dead[j]))
            && (forall j, k | 0 <= j < k < |s.db.dead| :: s.db.dead[j].taskId != s.db.dead[k].taskId)
  {
    SettledInvRun(states, labels, i);
    var s := states[i];
    forall id | id in s.db.tasks && s.db.tasks[id].status == Failed
      ensures exists j :: 0 <= j < |s.db.dead| && s.db.dead[j].taskId == id
    {
      var j := LetterIndex(s.db.dead, id);
    }
    forall j, k | 0 <= j < k < |s.db.dead| ensures s.db.dead[j].taskId != s.db.dead[k].taskId {
      assert LetterAgrees(s.db.tasks, s.db.dead[j]);
      if s.db.dead[j].taskId == s.db.dead[k].taskId {
        TwoLetters(s.db.dead, s.db.dead[j].taskId, j, k);
      }
    }
  }

  /** Failures recorded so far: the retries, and the final one. */
  function Failures(s: Sys, id: nat): nat
    requires id in s.tally
  {
    s.tally[id].retries + DeadCount(s.db.dead, id)
  }

  /** `max_retries` retries means one attempt more than that. The task is failed exactly when that
      many failures are on record; a startup requeue buys a claim and costs no retry. */
  lemma AttemptsAddUp(states: seq<Sys>, labels: seq<Label>, i: nat, id: nat)
    requires SettledRun(states, labels) && i < |states| && id in states[i].db.tasks
    ensures var s := states[i];
            var r := s.db.tasks[id];
            && id in s.tally
            && r.retryCount == s.tally[id].retries
            && Failures(s, id) <= r.maxRetries + 1
            && (r.status == Failed <==> Failures(s, id) == r.maxRetries + 1)
            && s.tally[id].claims <= r.maxRetries + 1 + s.tally[id].requeues
            && (r.status == Failed ==> s.tally[id].claims == r.maxRetries + 1 + s.tally[id].requeues)
            && (r.status in {Running, Completed} ==> s.tally[id].claims == r.retryCount + 1 + s.tally[id].requeues)
  {
    SettledInvRun(states, labels, i);
    var s := states[i];
    assert RowOk(id, s.db.tasks[id]);
    assert LedgerOk(s.db.tasks[id], s.tally[id], DeadCount(s.db.dead, id), HeldIn(s.claims, id));
  }

  // ---------------------------------------------------------------- finality

  /** Completed, failed, or cancelled while nobody was running it. */
  ghost predicate Final(s: Sys, id: nat) {
    id in s.db.tasks && (s.db.tasks[id].status in {Completed, Failed} || (s.db.tasks[id].status == Cancelled && !Held(s, id)))
  }

  lemma FinishedIsUnheld(s: Sys, id: nat)
    requires Coherent(s) && Base(s) && Final(s, id)
    ensures !Held(s, id)
  {
    if k :| k in s.claims && s.claims[k].snap.id == id {
      assert HolderOk(s.db.tasks, s.procs, s.claims[k]);
      assert s.claims[k].stage.Locked? ==> IsLock(s.claims, k);
    }
  }

  lemma FinalKeeps(s: Sys, l: Label, id: nat)
    requires SettledInv(s) && Enabled(s, l) && SettledStep(s, l) && Final(s, id)
    ensures WriteTo(s, l, s.db.tasks[id]) == Keep
  {
    FinishedIsUnheld(s, id);
    SettledWriteOk(s, l, id);
  }

  lemma FinalStays(s: Sys, l: Label, id: nat)
    requires SettledInv(s) && Enabled(s, l) && SettledStep(s, l) && Final(s, id)
    ensures !HeldIn(ClaimsAfter(s, l), id)
    ensures id in RowWrites(s.db.tasks, s, l) && RowWrites(s.db.tasks, s, l)[id] == s.db.tasks[id]
  {
    FinishedIsUnheld(s, id);
    FinalKeeps(s, l, id);
    RowKept(s, l, id);
    if HeldIn(ClaimsAfter(s, l), id) {
      HeldOrigin(s, l, id);
    }
  }

  lemma FinalCounts(s: Sys, l: Label, id: nat)
    requires SettledInv(s) && Enabled(s, l) && SettledStep(s, l) && Final(s, id)
    ensures id in s.tally && id in TallyAfter(s, l) && TallyAfter(s, l)[id] == s.tally[id]
  {
    FinishedIsUnheld(s, id);
    FinalKeeps(s, l, id);
    assert RowOk(id, s.db.tasks[id]);
    assert id in s.tally;
    TallyKept(s, l, id);
    UnheldKeepsCount(s, l, id);
  }

  lemma UnheldKeepsCount(s: Sys, l: Label, id: nat)
    requires Enabled(s, l) && !Held(s, id)
    ensures !Aborts(s, l, id)
  {
  }

  lemma FinalStep(s: Sys, l: Label, id: nat)
    requires SettledInv(s) && Enabled(s, l) && SettledStep(s, l) && Final(s, id)
    ensures var s' := Apply(s, l);
            && Final(s', id) && !Held(s', id) && s'.db.tasks[id] == s.db.tasks[id]
            && id in s.tally && id in s'.tally && s'.tally[id] == s.tally[id]
  {
    FinalStays(s, l, id);
    FinalCounts(s, l, id);
  }

  ghost predicate Frozen(s: Sys, id: nat, r: Task, y: Tally) {
    Final(s, id) && !Held(s, id) && s.db.tasks[id] == r && id in s.tally && s.tally[id] == y
  }

  lemma {:induction false} FrozenFrom(states: seq<Sys>, labels: seq<Label>, i: nat, j: nat, id: nat, r: Task, y: Tally)
    requires SettledRun(states, labels) && i <= j < |states| && Frozen(states[i], id, r, y)
    ensures Frozen(states[j], id, r, y)
    decreases j
  {
    if i < j {
      FrozenFrom(states, labels, i, j - 1, id, r, y);
      SettledInvRun(states, labels, j - 1);
      RunStep(states, labels, j);
      FinalStep(states[j - 1], labels[j - 1], id);
    }
  }

  /** A final task is final in every continuation: the row never changes again, nobody holds it
      again, and it is not claimed, retried or requeued again. */
  lemma Finality(states: seq<Sys>, labels: seq<Label>, i: nat, j: nat, id: nat)
    requires SettledRun(states, labels) && i <= j < |states| && Final(states[i], id)
    ensures Final(states[j], id) && !Held(states[j], id)
    ensures states[j].db.tasks[id] == states[i].db.tasks[id]
    ensures id in states[i].tally && id in states[j].tally && states[j].tally[id] == states[i].tally[id]
  {
    SettledInvRun(states, labels, i);
    FinishedIsUnheld(states[i], id);
    assert id in states[i].tally;
    FrozenFrom(states, labels, i, j, id, states[i].db.tasks[id], states[i].tally[id]);
  }

  /** Cancelling a task that is still pending makes it final on the spot: a row that is being claimed
      is locked, and the update has to wait. */
  lemma PendingCancelIsFinal(s: Sys, client: string, id: nat)
    requires SettledInv(s) && Enabled(s, Cancel(client, id)) && s.db.tasks[id].status == Pending
    ensures Final(Apply(s, Cancel(client, id)), id) && Apply(s, Cancel(client, id)).db.tasks[id].status == Cancelled
  {
    PendingHeldIsLocked(s, id);
    assert RowOk(id, s.db.tasks[id]);
    RowKept(s, Cancel(client, id), id);
  }

  /** A sequence of settled steps from one state to another. */
  ghost predicate Path(s: Sys, ls: seq<Label>, s': Sys)
    decreases |ls|
  {
    if ls == [] then s == s'
    else Enabled(s, ls[0]) && SettledStep(s, ls[0]) && Path(Apply(s, ls[0]), ls[1..], s')
  }

  ghost predicate CanReach(s: Sys, s': Sys) {
    exists ls :: Path(s, ls, s')
  }

  lemma ReachCons(s: Sys, l: Label, s': Sys)
    requires Enabled(s, l) && SettledStep(s, l) && CanReach(Apply(s, l), s')
    ensures CanReach(s, s')
  {
    var ls :| Path(Apply(s, l), ls, s');
    assert ([l] + ls)[1..] == ls;
    assert Path(s, [l] + ls, s');
  }

  lemma ReachSelf(s: Sys)
    ensures CanReach(s, s)
  {
    assert Path(s, [], s);
  }

  // ---------------------------------------------------------------- somebody can always be started

  lemma {:induction false} FreshPid(pids: set<nat>) returns (p: nat)
    ensures forall q | q in pids :: q < p
    decreases pids
  {
    if pids == {} {
      p := 0;
    } else {
      var q :| q in pids;
      var r := FreshPid(pids - {q});
      p := if q < r then r else q + 1;
      assert forall x | x in pids :: x == q || x in pids - {q};
    }
  }

  lemma {:induction false} UnusedName(procs: map<nat, Proc>, pids: set<nat>) returns (name: string)
    requires pids <= procs.Keys
    ensures forall q | q in pids :: |procs[q].name| < |name|
    decreases pids
  {
    if pids == {} {
      name := [];
    } else {
      var q :| q in pids;
      var n := UnusedName(procs, pids - {q});
      name := if |procs[q].name| < |n| then n else procs[q].name + ['x'];
    }
  }

  /** A process can be started that recovers nothing: it serves, and changes neither rows nor claims. */
  lemma Newcomer(s: Sys) returns (l: Label)
    requires Base(s)
    ensures l.Spawn? && !l.recovered && Enabled(s, l) && SettledStep(s, l)
    ensures RowWrites(s.db.tasks, s, l) == s.db.tasks && DeadWrites(s, l) == s.db.dead
    ensures ClaimsAfter(s, l) == s.claims && FoundAfter(s, l) == s.found
    ensures ProcsAfter(s, l) == s.procs[l.pid := Proc(l.name, true)]
  {
    var pid := FreshPid(s.procs.Keys);
    var name := UnusedName(s.procs, s.procs.Keys);
    l := Spawn(pid, name, false);
  }

  // ---------------------------------------------------------------- a holder can complete its task

  function StageRank(stage: Stage): nat {
    match stage case Locked => 5 case InHand => 4 case Queued => 3 case Picked => 2 case Started => 1
  }

  /** The next thing that happens to a claim when nothing goes wrong. */
  function Onward(s: Sys, k: nat): Label
    requires k in s.claims
  {
    match s.claims[k].stage
    case Locked => Commit(k)
    case InHand => Submit(k)
    case Queued => Pickup(k)
    case Picked => Start(k, true)
    case Started => Complete(k)
  }

  lemma OnwardEnabled(s: Sys, k: nat)
    requires SettledInv(s) && k in s.claims
    ensures Enabled(s, Onward(s, k)) && SettledStep(s, Onward(s, k))
  {
    assert HolderOk(s.db.tasks, s.procs, s.claims[k]);
  }

  lemma OnwardAdvances(s: Sys, k: nat)
    requires k in s.claims && Enabled(s, Onward(s, k)) && !s.claims[k].stage.Started?
    ensures var claims' := ClaimsAfter(s, Onward(s, k));
            k in claims' && claims'[k].snap.id == s.claims[k].snap.id && StageRank(claims'[k].stage) == StageRank(s.claims[k].stage) - 1
  {
  }

  lemma OnwardStep(s: Sys, k: nat) returns (t: Sys)
    requires SettledInv(s) && k in s.claims && !s.claims[k].stage.Started?
    ensures SettledInv(t) && k in t.claims && t.claims[k].snap.id == s.claims[k].snap.id
    ensures StageRank(t.claims[k].stage) < StageRank(s.claims[k].stage)
    ensures forall s' :: CanReach(t, s') ==> CanReach(s, s')
  {
    var l := Onward(s, k);
    OnwardEnabled(s, k);
    OnwardAdvances(s, k);
    SettledInvStep(s, l);
    t := Apply(s, l);
    forall s' | CanReach(t, s') ensures CanReach(s, s') {
      ReachCons(s, l, s');
    }
  }

  ghost predicate CompletedIn(s: Sys, id: nat) {
    id in s.db.tasks && s.db.tasks[id].status == Completed
  }

  lemma CompleteWrites(s: Sys, k: nat)
    requires SettledInv(s) && k in s.claims && s.claims[k].stage.Started?
    ensures Enabled(s, Complete(k)) && SettledStep(s, Complete(k)) && s.claims[k].snap.id in s.db.tasks
    ensures WriteTo(s, Complete(k), s.db.tasks[s.claims[k].snap.id]).Finish? && ClaimsAfter(s, Complete(k)) == s.claims - {k}
  {
    OnwardEnabled(s, k);
    assert HolderOk(s.db.tasks, s.procs, s.claims[k]);
    assert RowOk(s.claims[k].snap.id, s.db.tasks[s.claims[k].snap.id]);
  }

  lemma Finishes(s: Sys, l: Label, id: nat)
    requires RowsOk(s.db.tasks, s.db.nextId) && Enabled(s, l) && id in s.db.tasks && WriteTo(s, l, s.db.tasks[id]).Finish?
    ensures CompletedIn(Apply(s, l), id)
  {
    RowKept(s, l, id);
  }

  lemma StartedCanComplete(s: Sys, k: nat) returns (s': Sys)
    requires SettledInv(s) && k in s.claims && s.claims[k].stage.Started?
    ensures CanReach(s, s') && CompletedIn(s', s.claims[k].snap.id)
  {
    CompleteWrites(s, k);
    Finishes(s, Complete(k), s.claims[k].snap.id);
    s' := Apply(s, Complete(k));
    ReachSelf(s');
    ReachCons(s, Complete(k), s');
  }

  /** Whoever holds a task, even a cancelled one, may still complete it. */
  lemma {:induction false} HolderCanComplete(s: Sys, k: nat) returns (s': Sys)
    requires SettledInv(s) && k in s.claims
    ensures CanReach(s, s') && CompletedIn(s', s.claims[k].snap.id)
    decreases StageRank(s.claims[k].stage)
  {
    if s.claims[k].stage.Started? {
      s' := StartedCanComplete(s, k);
    } else {
      var t := OnwardStep(s, k);
      s' := HolderCanComplete(t, k);
    }
  }

  lemma {:induction false} PathKeepsFinal(s: Sys, ls: seq<Label>, s': Sys, id: nat)
    requires SettledInv(s) && Path(s, ls, s') && Final(s, id)
    ensures id in s'.db.tasks && s'.db.tasks[id] == s.db.tasks[id]
    decreases |ls|
  {
    if ls != [] {
      SettledInvStep(s, ls[0]);
      FinalStep(s, ls[0], id);
      PathKeepsFinal(Apply(s, ls[0]), ls[1..], s', id);
    }
  }

  ghost predicate StaysCancelled(s: Sys, id: nat) {
    forall s' :: CanReach(s, s') ==> id in s'.db.tasks && s'.db.tasks[id].status == Cancelled
  }

  lemma HeldCancelIsNotFinal(s: Sys, id: nat)
    requires SettledInv(s) && Held(s, id)
    ensures !StaysCancelled(s, id)
  {
    var k :| k in s.claims && s.claims[k].snap.id == id;
    var s' := HolderCanComplete(s, k);
  }

  /** Cancelling is final if and only if nobody was holding the task. */
  lemma CancelIsFinalIffUnheld(s: Sys, id: nat)
    requires SettledInv(s) && id in s.db.tasks && s.db.tasks[id].status == Cancelled
    ensures StaysCancelled(s, id) <==> !Held(s, id)
  {
    if Held(s, id) {
      HeldCancelIsNotFinal(s, id);
    } else {
      forall s' | CanReach(s, s') ensures id in s'.db.tasks && s'.db.tasks[id].status == Cancelled {
        var ls :| Path(s, ls, s');
        PathKeepsFinal(s, ls, s', id);
      }
    }
  }
}
