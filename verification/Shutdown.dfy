/** One process, seen from the inside and from the outside at once: its goroutines, channel and workers
    on one hand, its claims in the protocol of all instances on the other. Every step of the inside is a
    step of the protocol or shows nothing there; a process never has more claims than its workers and its
    channel have room for; and when its main has come to its end it may exit and leaves nothing behind. */
module Shutdowns {
  import opened Tasks
  import opened Unconditional
  import I = Instances
  import P = Protocol
  import Settled
  import Recovery

  /** Which claim is where: the open transaction, the task that is being sent, the tasks in the channel
      and those with the workers. */
  datatype Ties = Ties(lock: Option<nat>, hand: Option<nat>, queue: seq<nat>, work: seq<Option<nat>>)

  datatype Joint = Joint(inst: I.Inst, sys: P.Sys, ties: Ties)

  /** A step of the inside, of the protocol, or of both. */
  datatype Label = Label(own: Option<I.Label>, step: Option<P.Label>)

  predicate Own(claims: map<nat, P.Claim>, k: nat, pid: nat) {
    k in claims && claims[k].pid == pid
  }

  predicate ClaimIs(claims: map<nat, P.Claim>, k: nat, pid: nat, stages: set<P.Stage>, task: Task) {
    Own(claims, k, pid) && claims[k].stage in stages && claims[k].snap == task
  }

  ghost predicate LockTied(claims: map<nat, P.Claim>, pid: nat, claiming: bool, lock: Option<nat>) {
    lock.Some? ==> claiming && Own(claims, lock.value, pid) && claims[lock.value].stage.Locked?
  }

  ghost predicate HandTied(claims: map<nat, P.Claim>, pid: nat, hands: seq<Task>, hand: Option<nat>) {
    match hand
    case None => hands == []
    case Some(k) => |hands| == 1 && ClaimIs(claims, k, pid, {P.InHand}, hands[0])
  }

  ghost predicate QueueTied(claims: map<nat, P.Claim>, pid: nat, queue: seq<Task>, ks: seq<nat>) {
    && |ks| == |queue|
    && (forall i | 0 <= i < |ks| :: ClaimIs(claims, ks[i], pid, {P.Queued}, queue[i]))
    && (forall i, j | 0 <= i < j < |ks| :: ks[i] != ks[j])
  }

  ghost predicate WorkTied(claims: map<nat, P.Claim>, pid: nat, workers: seq<I.Worker>, ks: seq<Option<nat>>) {
    && |ks| == |workers|
    && (forall w | 0 <= w < |ks| ::
          if workers[w].Busy? then ks[w].Some? && ClaimIs(claims, ks[w].value, pid, {P.Picked, P.Started}, workers[w].task) else ks[w] == None)
    && (forall v, w | 0 <= v < w < |ks| && ks[v].Some? :: ks[v] != ks[w])
  }

  predicate Has(t: Ties, k: nat) {
    t.lock == Some(k) || t.hand == Some(k) || k in t.queue || Some(k) in t.work
  }

  /** The process has no other claims. */
  ghost predicate AllTied(claims: map<nat, P.Claim>, pid: nat, t: Ties) {
    forall k | Own(claims, k, pid) :: Has(t, k)
  }

  predicate ProcTied(procs: map<nat, P.Proc>, pid: nat, main: I.Main) {
    pid in procs && (procs[pid].serving <==> main in {I.Serving, I.AwaitScheduler})
  }

  /** Where an instance can have a task. */
  datatype Places = Places(claiming: bool, hands: seq<Task>, queue: seq<Task>, workers: seq<I.Worker>)

  function PlacesOf(x: I.Inst): Places {
    Places(I.Claiming(x), I.Hands(x.ticks), x.queue, x.workers)
  }

  ghost predicate ClaimsTied(claims: map<nat, P.Claim>, pid: nat, x: Places, t: Ties) {
    && LockTied(claims, pid, x.claiming, t.lock)
    && HandTied(claims, pid, x.hands, t.hand)
    && QueueTied(claims, pid, x.queue, t.queue)
    && WorkTied(claims, pid, x.workers, t.work)
    && AllTied(claims, pid, t)
  }

  ghost predicate Tied(j: Joint, pid: nat) {
    ProcTied(j.sys.procs, pid, j.inst.main) && ClaimsTied(j.sys.claims, pid, PlacesOf(j.inst), j.ties)
  }

  ghost predicate Inv(j: Joint, pid: nat) {
    I.Inv(j.inst) && |j.inst.workers| >= 1 && Base(j.sys) && Tied(j, pid)
  }

  // ---------------------------------------------------------------- joint steps

  /** A step of the protocol that the inside of this process takes no part in. */
  predicate Background(s: P.Sys, l: P.Label, pid: nat) {
    match l
    case LockRow(q, _) => q != pid
    case Commit(k) => !Own(s.claims, k, pid)
    case Rollback(k) => !Own(s.claims, k, pid)
    case Submit(k) => !Own(s.claims, k, pid)
    case Pickup(k) => !Own(s.claims, k, pid)
    case Complete(k) => !Own(s.claims, k, pid)
    case Fail(k, _) => !Own(s.claims, k, pid)
    case Drop(k) => !Own(s.claims, k, pid)
    case Drain(q) => q != pid
    case Exit(q) => q != pid
    case Crash(q) => q != pid
    case _ => true
  }

  /** The claim that a worker's report ends. */
  predicate Reports(l: P.Label, k: nat) {
    l == P.Complete(k) || (l.Fail? && l.k == k) || l == P.Drop(k)
  }

  /** What a step of the inside is in the protocol. A transaction opens unseen by the rest of the process. */
  ghost predicate Matches(j: Joint, l: Label, pid: nat) {
    match l.own
    case None =>
      l.step.Some? &&
      (Background(j.sys, l.step.value, pid) || (l.step.value.LockRow? && l.step.value.pid == pid && j.ties.lock == None && I.Claiming(j.inst)))
    case Some(own) =>
      match own
      case Dequeue(_, task) =>
        && j.ties.lock.Some? && l.step == Some(P.Commit(j.ties.lock.value))
        && pid in j.sys.procs && j.ties.lock.value in j.sys.claims
        && task == Snapshot(j.sys.claims[j.ties.lock.value].snap, j.sys.procs[pid].name)
      case DequeueNone(_) =>
        if j.ties.lock.Some? then l.step == Some(P.Rollback(j.ties.lock.value))
        else l.step == None || (l.step.value.FindNone? && l.step.value.pid == pid)
      case Send(_) => j.ties.hand.Some? && l.step == Some(P.Submit(j.ties.hand.value))
      case Take(_) => j.ties.queue != [] && l.step == Some(P.Pickup(j.ties.queue[0]))
      case Finish(w) => w < |j.ties.work| && j.ties.work[w].Some? && l.step.Some? && Reports(l.step.value, j.ties.work[w].value)
      case SchedulerStopped => l.step == Some(P.Drain(pid))
      case _ => l.step == None
  }

  ghost predicate Enabled(j: Joint, l: Label, pid: nat) {
    && (l.own.Some? ==> I.Enabled(j.inst, l.own.value))
    && (l.step.Some? ==> P.Enabled(j.sys, l.step.value))
    && Matches(j, l, pid)
  }

  ghost function TiesAfter(j: Joint, l: Label, pid: nat): Ties
    requires Enabled(j, l, pid)
  {
    var t := j.ties;
    match l.own
    case None => if Background(j.sys, l.step.value, pid) then t else t.(lock := Some(j.sys.nextClaim))
    case Some(own) =>
      match own
      case Dequeue(_, _) => t.(lock := None, hand := t.lock)
      case DequeueNone(_) => t.(lock := None)
      case Send(_) => t.(hand := None, queue := t.queue + [t.hand.value])
      case Take(w) => if w < |t.work| then t.(queue := t.queue[1..], work := t.work[w := Some(t.queue[0])]) else t
      case Finish(w) => t.(work := t.work[w := None])
      case _ => t
  }

  ghost function Apply(j: Joint, l: Label, pid: nat): Joint
    requires Enabled(j, l, pid)
  {
    Joint(if l.own.Some? then I.Apply(j.inst, l.own.value) else j.inst,
          if l.step.Some? then P.Apply(j.sys, l.step.value) else j.sys,
          TiesAfter(j, l, pid))
  }

  // ---------------------------------------------------------------- claims a step leaves alone

  /** But for claim k, the process has the same claims, at the same stage or begun. */
  ghost predicate Carries(claims: map<nat, P.Claim>, claims': map<nat, P.Claim>, pid: nat, k: nat) {
    forall j {:trigger Own(claims', j, pid)} {:trigger Own(claims, j, pid)} | j != k ::
      && (Own(claims', j, pid) <==> Own(claims, j, pid))
      && (Own(claims, j, pid) ==>
            && claims'[j].snap == claims[j].snap
            && (claims'[j].stage == claims[j].stage || (claims[j].stage.Picked? && claims'[j].stage.Started?)))
  }

  lemma ClaimCarried(claims: map<nat, P.Claim>, claims': map<nat, P.Claim>, pid: nat, k: nat, j: nat, stages: set<P.Stage>, task: Task)
    requires Carries(claims, claims', pid, k) && j != k && ClaimIs(claims, j, pid, stages, task)
    requires P.Picked in stages ==> P.Started in stages
    ensures ClaimIs(claims', j, pid, stages, task)
  {
    assert Own(claims, j, pid);
  }

  lemma LockCarried(claims: map<nat, P.Claim>, claims': map<nat, P.Claim>, pid: nat, k: nat, claiming: bool, claiming': bool, lock: Option<nat>)
    requires Carries(claims, claims', pid, k) && LockTied(claims, pid, claiming, lock) && lock != Some(k) && (claiming ==> claiming')
    ensures LockTied(claims', pid, claiming', lock)
  {
    if lock.Some? { assert Own(claims, lock.value, pid); }
  }

  lemma HandCarried(claims: map<nat, P.Claim>, claims': map<nat, P.Claim>, pid: nat, k: nat, hands: seq<Task>, hand: Option<nat>)
    requires Carries(claims, claims', pid, k) && HandTied(claims, pid, hands, hand) && hand != Some(k)
    ensures HandTied(claims', pid, hands, hand)
  {
    if hand.Some? { ClaimCarried(claims, claims', pid, k, hand.value, {P.InHand}, hands[0]); }
  }

  lemma QueueCarried(claims: map<nat, P.Claim>, claims': map<nat, P.Claim>, pid: nat, k: nat, queue: seq<Task>, ks: seq<nat>)
    requires Carries(claims, claims', pid, k) && QueueTied(claims, pid, queue, ks) && k !in ks
    ensures QueueTied(claims', pid, queue, ks)
  {
    forall i | 0 <= i < |ks| ensures ClaimIs(claims', ks[i], pid, {P.Queued}, queue[i]) {
      ClaimCarried(claims, claims', pid, k, ks[i], {P.Queued}, queue[i]);
    }
  }

  lemma WorkCarried(claims: map<nat, P.Claim>, claims': map<nat, P.Claim>, pid: nat, k: nat, workers: seq<I.Worker>, ks: seq<Option<nat>>)
    requires Carries(claims, claims', pid, k) && WorkTied(claims, pid, workers, ks) && Some(k) !in ks
    ensures WorkTied(claims', pid, workers, ks)
  {
    forall w | 0 <= w < |ks| && workers[w].Busy? ensures ClaimIs(claims', ks[w].value, pid, {P.Picked, P.Started}, workers[w].task) {
      ClaimCarried(claims, claims', pid, k, ks[w].value, {P.Picked, P.Started}, workers[w].task);
    }
  }

  /** A claim is in the place that its stage says. */
  lemma PlaceOf(claims: map<nat, P.Claim>, pid: nat, x: Places, t: Ties, k: nat)
    requires ClaimsTied(claims, pid, x, t) && k in claims
    ensures t.lock == Some(k) ==> claims[k].stage.Locked?
    ensures t.hand == Some(k) ==> claims[k].stage.InHand?
    ensures k in t.queue ==> claims[k].stage.Queued?
    ensures Some(k) in t.work ==> claims[k].stage.Picked? || claims[k].stage.Started?
  {
    if i :| 0 <= i < |t.queue| && t.queue[i] == k {
      assert ClaimIs(claims, t.queue[i], pid, {P.Queued}, x.queue[i]);
    }
    if w :| 0 <= w < |t.work| && t.work[w] == Some(k) {
      assert x.workers[w].Busy?;
      assert ClaimIs(claims, t.work[w].value, pid, {P.Picked, P.Started}, x.workers[w].task);
    }
  }

  lemma TiedIsOwn(claims: map<nat, P.Claim>, pid: nat, x: Places, t: Ties, k: nat)
    requires ClaimsTied(claims, pid, x, t)
    ensures Has(t, k) ==> Own(claims, k, pid)
  {
    if i :| 0 <= i < |t.queue| && t.queue[i] == k {
      assert ClaimIs(claims, t.queue[i], pid, {P.Queued}, x.queue[i]);
    }
    if w :| 0 <= w < |t.work| && t.work[w] == Some(k) {
      assert x.workers[w].Busy?;
      assert ClaimIs(claims, t.work[w].value, pid, {P.Picked, P.Started}, x.workers[w].task);
    }
  }

  // ---------------------------------------------------------------- steps of the protocol alone

  lemma BackgroundCarries(s: P.Sys, l: P.Label, pid: nat)
    requires P.Enabled(s, l) && Background(s, l, pid) && s.nextClaim !in s.claims
    ensures Carries(s.claims, P.ClaimsAfter(s, l), pid, s.nextClaim) && !Own(P.ClaimsAfter(s, l), s.nextClaim, pid)
  {
  }

  lemma ElsewhereTied(claims: map<nat, P.Claim>, claims': map<nat, P.Claim>, pid: nat, x: Places, t: Ties, n: nat)
    requires ClaimsTied(claims, pid, x, t) && Carries(claims, claims', pid, n) && n !in claims && !Own(claims', n, pid)
    ensures ClaimsTied(claims', pid, x, t)
  {
    TiedIsOwn(claims, pid, x, t, n);
    LockCarried(claims, claims', pid, n, x.claiming, x.claiming, t.lock);
    HandCarried(claims, claims', pid, n, x.hands, t.hand);
    QueueCarried(claims, claims', pid, n, x.queue, t.queue);
    WorkCarried(claims, claims', pid, n, x.workers, t.work);
  }

  lemma BackgroundTied(s: P.Sys, l: P.Label, pid: nat, x: Places, t: Ties)
    requires Base(s) && P.Enabled(s, l) && Background(s, l, pid) && ClaimsTied(s.claims, pid, x, t)
    ensures ClaimsTied(P.ClaimsAfter(s, l), pid, x, t)
  {
    assert s.nextClaim !in s.claims;
    BackgroundCarries(s, l, pid);
    ElsewhereTied(s.claims, P.ClaimsAfter(s, l), pid, x, t, s.nextClaim);
  }

  lemma OpensTied(s: P.Sys, l: P.Label, pid: nat, x: Places, t: Ties)
    requires Base(s) && P.Enabled(s, l) && l.LockRow? && l.pid == pid && ClaimsTied(s.claims, pid, x, t)
    requires t.lock == None && x.claiming
    ensures ClaimsTied(P.ClaimsAfter(s, l), pid, x, t.(lock := Some(s.nextClaim)))
  {
    var claims, claims', n := s.claims, P.ClaimsAfter(s, l), s.nextClaim;
    assert n !in claims;
    TiedIsOwn(claims, pid, x, t, n);
    HandCarried(claims, claims', pid, n, x.hands, t.hand);
    QueueCarried(claims, claims', pid, n, x.queue, t.queue);
    WorkCarried(claims, claims', pid, n, x.workers, t.work);
  }

  // ---------------------------------------------------------------- steps of the inside move tasks from place to place

  lemma DequeueMoves(x: I.Inst, l: I.Label)
    requires I.GuardOk(x) && I.Enabled(x, l) && l.Dequeue?
    ensures PlacesOf(x).hands == [] && exists claiming :: PlacesOf(I.Apply(x, l)) == PlacesOf(x).(claiming := claiming, hands := [l.task])
  {
    I.HandsStep(x, l);
    assert PlacesOf(I.Apply(x, l)) == PlacesOf(x).(claiming := I.Claiming(I.Apply(x, l)), hands := [l.task]);
  }

  lemma DequeueNoneMoves(x: I.Inst, l: I.Label)
    requires I.GuardOk(x) && I.Enabled(x, l) && l.DequeueNone?
    ensures exists claiming :: PlacesOf(I.Apply(x, l)) == PlacesOf(x).(claiming := claiming)
  {
    I.HandsStep(x, l);
    assert PlacesOf(I.Apply(x, l)) == PlacesOf(x).(claiming := I.Claiming(I.Apply(x, l)));
  }

  lemma ClaimingSame(x: I.Inst, l: I.Label)
    requires I.Enabled(x, l) && (l.Send? || l.Take? || l.Finish?)
    ensures I.Claiming(I.Apply(x, l)) == I.Claiming(x)
  {
    if g :| 0 <= g < |x.ticks| && x.ticks[g].Dequeuing? {
      assert I.TicksAfter(x, l)[g].Dequeuing?;
    }
  }

  lemma SendMoves(x: I.Inst, l: I.Label)
    requires I.GuardOk(x) && I.Enabled(x, l) && l.Send?
    ensures |PlacesOf(x).hands| == 1
    ensures PlacesOf(I.Apply(x, l)) == PlacesOf(x).(hands := [], queue := x.queue + [PlacesOf(x).hands[0]])
  {
    I.HandsStep(x, l);
    ClaimingSame(x, l);
  }

  lemma TakeMoves(x: I.Inst, l: I.Label)
    requires I.GuardOk(x) && I.Enabled(x, l) && l.Take?
    ensures x.queue != [] && l.w < |x.workers| && x.workers[l.w].Idle?
    ensures PlacesOf(I.Apply(x, l)) == PlacesOf(x).(queue := x.queue[1..], workers := x.workers[l.w := I.Busy(x.queue[0])])
  {
    I.HandsStep(x, l);
    ClaimingSame(x, l);
  }

  lemma FinishMoves(x: I.Inst, l: I.Label)
    requires I.GuardOk(x) && I.Enabled(x, l) && l.Finish?
    ensures l.w < |x.workers| && PlacesOf(I.Apply(x, l)) == PlacesOf(x).(workers := x.workers[l.w := I.Idle])
  {
    I.HandsStep(x, l);
    ClaimingSame(x, l);
  }

  /** The other steps of the inside leave every task where it is. */
  predicate IsQuiet(l: I.Label) {
    !l.Dequeue? && !l.DequeueNone? && !l.Send? && !l.Take? && !l.Finish? && !l.Refuse? && !l.SendClosed?
  }

  predicate Settles(x: Places, x': Places) {
    && (x.claiming ==> x'.claiming) && x'.hands == x.hands && x'.queue == x.queue && |x'.workers| == |x.workers|
    && forall w {:trigger x'.workers[w]} | 0 <= w < |x.workers| && (x.workers[w].Busy? || x'.workers[w].Busy?) :: x'.workers[w] == x.workers[w]
  }

  lemma ClaimingStays(x: I.Inst, l: I.Label)
    requires I.Enabled(x, l) && IsQuiet(l) && I.Claiming(x)
    ensures I.Claiming(I.Apply(x, l))
  {
    var g :| 0 <= g < |x.ticks| && x.ticks[g].Dequeuing?;
    assert I.TicksAfter(x, l)[g].Dequeuing?;
  }

  lemma QuietWorkers(x: I.Inst, l: I.Label)
    requires I.Enabled(x, l) && IsQuiet(l)
    ensures I.QueueAfter(x, l) == x.queue && |I.WorkersAfter(x, l)| == |x.workers|
    ensures forall w {:trigger I.WorkersAfter(x, l)[w]} | 0 <= w < |x.workers| && (x.workers[w].Busy? || I.WorkersAfter(x, l)[w].Busy?) ::
              I.WorkersAfter(x, l)[w] == x.workers[w]
  {
  }

  lemma QuietMoves(x: I.Inst, l: I.Label)
    requires I.GuardOk(x) && I.Enabled(x, l) && IsQuiet(l)
    ensures Settles(PlacesOf(x), PlacesOf(I.Apply(x, l)))
  {
    I.HandsStep(x, l);
    QuietWorkers(x, l);
    if I.Claiming(x) { ClaimingStays(x, l); }
  }

  // ---------------------------------------------------------------- and the claims move with them

  lemma DequeueTied(claims: map<nat, P.Claim>, claims': map<nat, P.Claim>, pid: nat, x: Places, t: Ties, k: nat, claiming: bool, task: Task)
    requires ClaimsTied(claims, pid, x, t) && Carries(claims, claims', pid, k) && ClaimIs(claims', k, pid, {P.InHand}, task)
    requires t.lock == Some(k) && x.hands == []
    ensures ClaimsTied(claims', pid, x.(claiming := claiming, hands := [task]), t.(lock := None, hand := Some(k)))
  {
    PlaceOf(claims, pid, x, t, k);
    QueueCarried(claims, claims', pid, k, x.queue, t.queue);
    WorkCarried(claims, claims', pid, k, x.workers, t.work);
    forall j: nat | Own(claims', j, pid) ensures Has(t.(lock := None, hand := Some(k)), j) {
      assert j != k ==> Own(claims, j, pid);
    }
  }

  lemma RollbackTied(claims: map<nat, P.Claim>, pid: nat, x: Places, t: Ties, k: nat)
    requires ClaimsTied(claims, pid, x, t) && t.lock == Some(k)
    ensures ClaimsTied(claims - {k}, pid, x, t.(lock := None))
  {
    var claims' := claims - {k};
    PlaceOf(claims, pid, x, t, k);
    HandCarried(claims, claims', pid, k, x.hands, t.hand);
    QueueCarried(claims, claims', pid, k, x.queue, t.queue);
    WorkCarried(claims, claims', pid, k, x.workers, t.work);
  }

  lemma QueuePush(claims: map<nat, P.Claim>, pid: nat, queue: seq<Task>, ks: seq<nat>, k: nat, task: Task)
    requires QueueTied(claims, pid, queue, ks) && k !in ks && ClaimIs(claims, k, pid, {P.Queued}, task)
    ensures QueueTied(claims, pid, queue + [task], ks + [k])
  {
  }

  lemma SendAll(claims: map<nat, P.Claim>, claims': map<nat, P.Claim>, pid: nat, t: Ties, k: nat)
    requires Carries(claims, claims', pid, k) && AllTied(claims, pid, t) && t.hand == Some(k)
    ensures AllTied(claims', pid, t.(hand := None, queue := t.queue + [k]))
  {
    forall j: nat | Own(claims', j, pid) ensures Has(t.(hand := None, queue := t.queue + [k]), j) {
      assert j != k ==> Own(claims, j, pid);
    }
  }

  lemma SendTied(claims: map<nat, P.Claim>, claims': map<nat, P.Claim>, pid: nat, x: Places, t: Ties, k: nat, task: Task)
    requires ClaimsTied(claims, pid, x, t) && Carries(claims, claims', pid, k) && ClaimIs(claims', k, pid, {P.Queued}, task)
    requires t.hand == Some(k)
    ensures ClaimsTied(claims', pid, x.(hands := [], queue := x.queue + [task]), t.(hand := None, queue := t.queue + [k]))
  {
    PlaceOf(claims, pid, x, t, k);
    LockCarried(claims, claims', pid, k, x.claiming, x.claiming, t.lock);
    QueueCarried(claims, claims', pid, k, x.queue, t.queue);
    QueuePush(claims', pid, x.queue, t.queue, k, task);
    WorkCarried(claims, claims', pid, k, x.workers, t.work);
    SendAll(claims, claims', pid, t, k);
  }

  lemma TakeWork(claims: map<nat, P.Claim>, claims': map<nat, P.Claim>, pid: nat, workers: seq<I.Worker>, ks: seq<Option<nat>>,
                 w: nat, k: nat, task: Task)
    requires Carries(claims, claims', pid, k) && WorkTied(claims, pid, workers, ks) && Some(k) !in ks
    requires w < |ks| && workers[w].Idle? && ClaimIs(claims', k, pid, {P.Picked}, task)
    ensures WorkTied(claims', pid, workers[w := I.Busy(task)], ks[w := Some(k)])
  {
    WorkCarried(claims, claims', pid, k, workers, ks);
  }

  lemma TakeAll(claims: map<nat, P.Claim>, claims': map<nat, P.Claim>, pid: nat, t: Ties, w: nat)
    requires t.queue != [] && Carries(claims, claims', pid, t.queue[0]) && AllTied(claims, pid, t)
    requires w < |t.work| && t.work[w] == None
    ensures AllTied(claims', pid, t.(queue := t.queue[1..], work := t.work[w := Some(t.queue[0])]))
  {
    var k, t' := t.queue[0], t.(queue := t.queue[1..], work := t.work[w := Some(t.queue[0])]);
    forall j: nat | Own(claims', j, pid) ensures Has(t', j) {
      if j != k {
        assert Own(claims, j, pid);
        StillHasAfterTake(t, w, j);
      } else {
        assert t'.work[w] == Some(k);
      }
    }
  }

  lemma QueueTail(claims: map<nat, P.Claim>, pid: nat, queue: seq<Task>, ks: seq<nat>)
    requires QueueTied(claims, pid, queue, ks) && ks != []
    ensures QueueTied(claims, pid, queue[1..], ks[1..]) && ks[0] !in ks[1..]
  {
  }

  lemma StillHasAfterTake(t: Ties, w: nat, j: nat)
    requires t.queue != [] && w < |t.work| && t.work[w] == None && Has(t, j) && j != t.queue[0]
    ensures Has(t.(queue := t.queue[1..], work := t.work[w := Some(t.queue[0])]), j)
  {
    if i :| 0 <= i < |t.queue| && t.queue[i] == j {
      assert t.queue[1..][i - 1] == j;
    }
    if v :| 0 <= v < |t.work| && t.work[v] == Some(j) {
      assert t.work[w := Some(t.queue[0])][v] == Some(j);
    }
  }

  lemma TakeTied(claims: map<nat, P.Claim>, claims': map<nat, P.Claim>, pid: nat, x: Places, t: Ties, w: nat)
    requires ClaimsTied(claims, pid, x, t) && t.queue != [] && w < |t.work| && x.workers[w].Idle?
    requires Carries(claims, claims', pid, t.queue[0]) && ClaimIs(claims', t.queue[0], pid, {P.Picked}, x.queue[0])
    ensures ClaimsTied(claims', pid, x.(queue := x.queue[1..], workers := x.workers[w := I.Busy(x.queue[0])]),
                       t.(queue := t.queue[1..], work := t.work[w := Some(t.queue[0])]))
  {
    var k := t.queue[0];
    assert ClaimIs(claims, k, pid, {P.Queued}, x.queue[0]);
    PlaceOf(claims, pid, x, t, k);
    LockCarried(claims, claims', pid, k, x.claiming, x.claiming, t.lock);
    HandCarried(claims, claims', pid, k, x.hands, t.hand);
    QueueTail(claims, pid, x.queue, t.queue);
    QueueCarried(claims, claims', pid, k, x.queue[1..], t.queue[1..]);
    TakeWork(claims, claims', pid, x.workers, t.work, w, k, x.queue[0]);
    TakeAll(claims, claims', pid, t, w);
  }

  lemma WorkWithout(claims: map<nat, P.Claim>, pid: nat, workers: seq<I.Worker>, ks: seq<Option<nat>>, w: nat)
    requires WorkTied(claims, pid, workers, ks) && w < |ks| && ks[w].Some?
    ensures WorkTied(claims, pid, workers[w := I.Idle], ks[w := None]) && ks[w] !in ks[w := None]
  {
  }

  lemma FinishAll(claims: map<nat, P.Claim>, pid: nat, t: Ties, w: nat, k: nat)
    requires AllTied(claims, pid, t) && w < |t.work| && t.work[w] == Some(k)
    ensures AllTied(claims - {k}, pid, t.(work := t.work[w := None]))
  {
    var t' := t.(work := t.work[w := None]);
    forall j: nat | Own(claims - {k}, j, pid) ensures Has(t', j) {
      assert Own(claims, j, pid);
      if v :| 0 <= v < |t.work| && t.work[v] == Some(j) {
        assert t'.work[v] == Some(j);
      }
    }
  }

  lemma FinishTied(claims: map<nat, P.Claim>, pid: nat, x: Places, t: Ties, w: nat, k: nat)
    requires ClaimsTied(claims, pid, x, t) && w < |t.work| && t.work[w] == Some(k)
    ensures ClaimsTied(claims - {k}, pid, x.(workers := x.workers[w := I.Idle]), t.(work := t.work[w := None]))
  {
    var claims' := claims - {k};
    assert ClaimIs(claims, k, pid, {P.Picked, P.Started}, x.workers[w].task);
    PlaceOf(claims, pid, x, t, k);
    LockCarried(claims, claims', pid, k, x.claiming, x.claiming, t.lock);
    HandCarried(claims, claims', pid, k, x.hands, t.hand);
    QueueCarried(claims, claims', pid, k, x.queue, t.queue);
    WorkWithout(claims, pid, x.workers, t.work, w);
    WorkCarried(claims, claims', pid, k, x.workers[w := I.Idle], t.work[w := None]);
    FinishAll(claims, pid, t, w, k);
  }

  lemma QuietTied(claims: map<nat, P.Claim>, pid: nat, x: Places, x': Places, t: Ties)
    requires ClaimsTied(claims, pid, x, t) && Settles(x, x')
    ensures ClaimsTied(claims, pid, x', t)
  {
  }

  // ---------------------------------------------------------------- joint steps keep everything tied

  lemma MainKept(x: I.Inst, l: I.Label)
    requires I.Enabled(x, l)
    ensures I.MainAfter(x, l) in {I.Serving, I.AwaitScheduler} <==> x.main in {I.Serving, I.AwaitScheduler} && !l.SchedulerStopped?
  {
  }

  lemma ProcKept(s: P.Sys, l: P.Label, pid: nat)
    requires P.Enabled(s, l) && pid in s.procs && l != P.Exit(pid) && l != P.Crash(pid)
    ensures pid in P.ProcsAfter(s, l) && (P.ProcsAfter(s, l)[pid].serving <==> s.procs[pid].serving && l != P.Drain(pid))
  {
  }

  /** Only the end of the scheduler is a drain, and no step is an exit. */
  lemma MatchesDrain(j: Joint, l: Label, pid: nat)
    requires Matches(j, l, pid) && l.step.Some?
    ensures l.step.value != P.Exit(pid) && l.step.value != P.Crash(pid)
    ensures l.step.value == P.Drain(pid) <==> l.own == Some(I.SchedulerStopped)
  {
  }

  lemma MatchesSilent(j: Joint, l: Label, pid: nat)
    requires Matches(j, l, pid) && l.step == None
    ensures l.own.Some? && l.own != Some(I.SchedulerStopped)
  {
  }

  lemma ProcKeptTied(j: Joint, l: Label, pid: nat)
    requires ProcTied(j.sys.procs, pid, j.inst.main) && Enabled(j, l, pid)
    ensures var j' := Apply(j, l, pid); ProcTied(j'.sys.procs, pid, j'.inst.main)
  {
    if l.own.Some? { MainKept(j.inst, l.own.value); }
    if l.step.Some? {
      MatchesDrain(j, l, pid);
      ProcKept(j.sys, l.step.value, pid);
    } else {
      MatchesSilent(j, l, pid);
    }
  }

  lemma ProtocolTied(j: Joint, l: Label, pid: nat)
    requires Inv(j, pid) && Enabled(j, l, pid) && l.own == None
    ensures var j' := Apply(j, l, pid); ClaimsTied(j'.sys.claims, pid, PlacesOf(j'.inst), j'.ties)
  {
    if Background(j.sys, l.step.value, pid) {
      BackgroundTied(j.sys, l.step.value, pid, PlacesOf(j.inst), j.ties);
    } else {
      OpensTied(j.sys, l.step.value, pid, PlacesOf(j.inst), j.ties);
    }
  }

  lemma CommitCarries(s: P.Sys, pid: nat, k: nat)
    requires P.Enabled(s, P.Commit(k)) && s.claims[k].pid == pid
    ensures var claims' := P.ClaimsAfter(s, P.Commit(k));
            Carries(s.claims, claims', pid, k) && ClaimIs(claims', k, pid, {P.InHand}, Snapshot(s.claims[k].snap, s.procs[pid].name))
  {
  }

  lemma SubmitCarries(s: P.Sys, pid: nat, k: nat, task: Task)
    requires P.Enabled(s, P.Submit(k)) && ClaimIs(s.claims, k, pid, {P.InHand}, task)
    ensures Carries(s.claims, P.ClaimsAfter(s, P.Submit(k)), pid, k) && ClaimIs(P.ClaimsAfter(s, P.Submit(k)), k, pid, {P.Queued}, task)
  {
  }

  lemma PickupCarries(s: P.Sys, pid: nat, k: nat, task: Task)
    requires P.Enabled(s, P.Pickup(k)) && ClaimIs(s.claims, k, pid, {P.Queued}, task)
    ensures Carries(s.claims, P.ClaimsAfter(s, P.Pickup(k)), pid, k) && ClaimIs(P.ClaimsAfter(s, P.Pickup(k)), k, pid, {P.Picked}, task)
  {
  }

  lemma ReportEnds(s: P.Sys, l: P.Label, k: nat)
    requires P.Enabled(s, l) && Reports(l, k)
    ensures P.ClaimsAfter(s, l) == s.claims - {k}
  {
  }

  lemma DequeueStepTied(j: Joint, l: Label, pid: nat)
    requires Inv(j, pid) && Enabled(j, l, pid) && l.own.Some? && l.own.value.Dequeue?
    ensures var j' := Apply(j, l, pid); ClaimsTied(j'.sys.claims, pid, PlacesOf(j'.inst), j'.ties)
  {
    var own, k := l.own.value, j.ties.lock.value;
    DequeueMoves(j.inst, own);
    CommitCarries(j.sys, pid, k);
    DequeueTied(j.sys.claims, P.ClaimsAfter(j.sys, P.Commit(k)), pid, PlacesOf(j.inst), j.ties, k, I.Claiming(I.Apply(j.inst, own)), own.task);
  }

  lemma DequeueNoneClaims(j: Joint, l: Label, pid: nat)
    requires Enabled(j, l, pid) && l.own.Some? && l.own.value.DequeueNone?
    ensures Apply(j, l, pid).sys.claims == (if j.ties.lock.Some? then j.sys.claims - {j.ties.lock.value} else j.sys.claims)
    ensures Apply(j, l, pid).inst == I.Apply(j.inst, l.own.value) && Apply(j, l, pid).ties == j.ties.(lock := None)
  {
  }

  lemma DequeueNoneStepTied(j: Joint, l: Label, pid: nat)
    requires Inv(j, pid) && Enabled(j, l, pid) && l.own.Some? && l.own.value.DequeueNone?
    ensures var j' := Apply(j, l, pid); ClaimsTied(j'.sys.claims, pid, PlacesOf(j'.inst), j'.ties)
  {
    DequeueNoneClaims(j, l, pid);
    DequeueNoneMoves(j.inst, l.own.value);
    if j.ties.lock.Some? {
      RollbackTied(j.sys.claims, pid, PlacesOf(j.inst), j.ties, j.ties.lock.value);
    }
  }

  lemma SendStepTied(j: Joint, l: Label, pid: nat)
    requires Inv(j, pid) && Enabled(j, l, pid) && l.own.Some? && l.own.value.Send?
    ensures var j' := Apply(j, l, pid); ClaimsTied(j'.sys.claims, pid, PlacesOf(j'.inst), j'.ties)
  {
    var own, k, task := l.own.value, j.ties.hand.value, PlacesOf(j.inst).hands[0];
    SendMoves(j.inst, own);
    SubmitCarries(j.sys, pid, k, task);
    SendTied(j.sys.claims, P.ClaimsAfter(j.sys, P.Submit(k)), pid, PlacesOf(j.inst), j.ties, k, task);
  }

  lemma TakeStepTied(j: Joint, l: Label, pid: nat)
    requires Inv(j, pid) && Enabled(j, l, pid) && l.own.Some? && l.own.value.Take?
    ensures var j' := Apply(j, l, pid); ClaimsTied(j'.sys.claims, pid, PlacesOf(j'.inst), j'.ties)
  {
    var own, k := l.own.value, j.ties.queue[0];
    TakeMoves(j.inst, own);
    assert ClaimIs(j.sys.claims, k, pid, {P.Queued}, j.inst.queue[0]);
    PickupCarries(j.sys, pid, k, j.inst.queue[0]);
    TakeTied(j.sys.claims, P.ClaimsAfter(j.sys, P.Pickup(k)), pid, PlacesOf(j.inst), j.ties, own.w);
  }

  lemma FinishStepTied(j: Joint, l: Label, pid: nat)
    requires Inv(j, pid) && Enabled(j, l, pid) && l.own.Some? && l.own.value.Finish?
    ensures var j' := Apply(j, l, pid); ClaimsTied(j'.sys.claims, pid, PlacesOf(j'.inst), j'.ties)
  {
    var own, k := l.own.value, j.ties.work[l.own.value.w].value;
    ReportEnds(j.sys, l.step.value, k);
    FinishMoves(j.inst, own);
    FinishTied(j.sys.claims, pid, PlacesOf(j.inst), j.ties, own.w, k);
  }

  lemma NoneRefused(x: I.Inst, l: I.Label)
    requires I.OrderOk(x) && I.Enabled(x, l) && !IsQuiet(l)
    ensures l.Dequeue? || l.DequeueNone? || l.Send? || l.Take? || l.Finish?
  {
  }

  lemma ClaimStepTied(j: Joint, l: Label, pid: nat)
    requires Inv(j, pid) && Enabled(j, l, pid) && l.own.Some? && !IsQuiet(l.own.value)
    ensures var j' := Apply(j, l, pid); ClaimsTied(j'.sys.claims, pid, PlacesOf(j'.inst), j'.ties)
  {
    NoneRefused(j.inst, l.own.value);
    if l.own.value.Dequeue? {
      DequeueStepTied(j, l, pid);
    } else if l.own.value.DequeueNone? {
      DequeueNoneStepTied(j, l, pid);
    } else if l.own.value.Send? {
      SendStepTied(j, l, pid);
    } else if l.own.value.Take? {
      TakeStepTied(j, l, pid);
    } else {
      FinishStepTied(j, l, pid);
    }
  }

  lemma QuietStepTied(j: Joint, l: Label, pid: nat)
    requires Inv(j, pid) && Enabled(j, l, pid) && l.own.Some? && IsQuiet(l.own.value)
    ensures var j' := Apply(j, l, pid); ClaimsTied(j'.sys.claims, pid, PlacesOf(j'.inst), j'.ties)
  {
    QuietClaims(j, l, pid);
    QuietMoves(j.inst, l.own.value);
    QuietTied(j.sys.claims, pid, PlacesOf(j.inst), PlacesOf(Apply(j, l, pid).inst), j.ties);
  }

  lemma QuietClaims(j: Joint, l: Label, pid: nat)
    requires Enabled(j, l, pid) && l.own.Some? && IsQuiet(l.own.value)
    ensures var j' := Apply(j, l, pid); j'.sys.claims == j.sys.claims && j'.inst == I.Apply(j.inst, l.own.value) && j'.ties == j.ties
  {
  }

  lemma EachKeepsInv(j: Joint, l: Label, pid: nat)
    requires Inv(j, pid) && Enabled(j, l, pid)
    ensures var j' := Apply(j, l, pid); I.Inv(j'.inst) && |j'.inst.workers| >= 1 && Base(j'.sys)
  {
    if l.own.Some? {
      I.InvStep(j.inst, l.own.value);
      I.SameCrew(j.inst, l.own.value);
    }
    if l.step.Some? {
      BaseStep(j.sys, l.step.value);
    }
  }

  /** Whatever the process and all the others do, its claims are exactly the tasks that its goroutines,
      its channel and its workers have, each at the stage that goes with the place. */
  lemma InvStep(j: Joint, l: Label, pid: nat)
    requires Inv(j, pid) && Enabled(j, l, pid)
    ensures Inv(Apply(j, l, pid), pid)
  {
    EachKeepsInv(j, l, pid);
    ProcKeptTied(j, l, pid);
    if l.own == None {
      ProtocolTied(j, l, pid);
    } else if IsQuiet(l.own.value) {
      QuietStepTied(j, l, pid);
    } else {
      ClaimStepTied(j, l, pid);
    }
  }

  // ---------------------------------------------------------------- every step of the inside has its place in the protocol

  lemma NothingInHand(j: Joint, pid: nat, k: nat)
    requires Inv(j, pid) && I.AllOver(j.inst.ticks) && Own(j.sys.claims, k, pid)
    ensures !j.sys.claims[k].stage.Locked? && !j.sys.claims[k].stage.InHand?
  {
    assert Has(j.ties, k);
    I.NoHands(j.inst.ticks);
    PlaceOf(j.sys.claims, pid, PlacesOf(j.inst), j.ties, k);
  }

  lemma DrainMatches(j: Joint, pid: nat)
    requires Inv(j, pid) && I.Enabled(j.inst, I.SchedulerStopped)
    ensures P.Enabled(j.sys, P.Drain(pid))
  {
    forall k | k in j.sys.claims && j.sys.claims[k].pid == pid
      ensures !j.sys.claims[k].stage.Locked? && !j.sys.claims[k].stage.InHand?
    {
      NothingInHand(j, pid, k);
    }
  }

  lemma SendMatches(j: Joint, pid: nat, g: nat)
    requires Inv(j, pid) && I.IsSending(j.inst, g)
    ensures j.ties.hand.Some? && P.Enabled(j.sys, P.Submit(j.ties.hand.value))
  {
    I.OneHand(j.inst.ticks, g);
    assert ClaimIs(j.sys.claims, j.ties.hand.value, pid, {P.InHand}, I.Hands(j.inst.ticks)[0]);
  }

  lemma TakeMatches(j: Joint, pid: nat)
    requires Inv(j, pid) && j.inst.queue != []
    ensures j.ties.queue != [] && P.Enabled(j.sys, P.Pickup(j.ties.queue[0]))
  {
    assert ClaimIs(j.sys.claims, j.ties.queue[0], pid, {P.Queued}, j.inst.queue[0]);
  }

  lemma FinishMatches(j: Joint, pid: nat, w: nat)
    requires Inv(j, pid) && w < |j.inst.workers| && j.inst.workers[w].Busy?
    ensures w < |j.ties.work| && j.ties.work[w].Some? && P.Enabled(j.sys, P.Drop(j.ties.work[w].value))
    ensures var k := j.ties.work[w].value;
            P.AtStage(j.sys, k, P.Started) && P.Writable(j.sys, j.sys.claims[k].snap.id) ==>
              P.Enabled(j.sys, P.Complete(k)) && forall err :: P.Enabled(j.sys, P.Fail(k, err))
  {
    assert ClaimIs(j.sys.claims, j.ties.work[w].value, pid, {P.Picked, P.Started}, j.inst.workers[w].task);
  }

  /** What the process has locked is what a dequeue can return. */
  ghost predicate CanReturn(j: Joint, pid: nat, task: Task) {
    && j.ties.lock.Some? && j.ties.lock.value in j.sys.claims && pid in j.sys.procs
    && task == Snapshot(j.sys.claims[j.ties.lock.value].snap, j.sys.procs[pid].name)
  }

  /** The step of the protocol that goes with a step of the inside; a worker may also complete or fail. */
  function Counterpart(t: Ties, own: I.Label, pid: nat): Option<P.Label> {
    match own
    case Dequeue(_, _) => if t.lock.Some? then Some(P.Commit(t.lock.value)) else None
    case DequeueNone(_) => if t.lock.Some? then Some(P.Rollback(t.lock.value)) else None
    case Send(_) => if t.hand.Some? then Some(P.Submit(t.hand.value)) else None
    case Take(_) => if t.queue != [] then Some(P.Pickup(t.queue[0])) else None
    case Finish(w) => if w < |t.work| && t.work[w].Some? then Some(P.Drop(t.work[w].value)) else None
    case SchedulerStopped => Some(P.Drain(pid))
    case _ => None
  }

  /** The tie that a step of the inside goes by is there. */
  ghost predicate HasTie(t: Ties, own: I.Label) {
    && (own.Send? ==> t.hand.Some?) && (own.Take? ==> t.queue != [])
    && (own.Finish? ==> own.w < |t.work| && t.work[own.w].Some?)
  }

  lemma LockMatches(j: Joint, pid: nat)
    requires Inv(j, pid) && j.ties.lock.Some?
    ensures P.Enabled(j.sys, P.Commit(j.ties.lock.value)) && P.Enabled(j.sys, P.Rollback(j.ties.lock.value))
  {
  }

  lemma CounterpartEnabled(j: Joint, own: I.Label, pid: nat)
    requires Inv(j, pid) && I.Enabled(j.inst, own)
    ensures var step := Counterpart(j.ties, own, pid); (step.Some? ==> P.Enabled(j.sys, step.value)) && HasTie(j.ties, own)
  {
    if own.Send? {
      SendMatches(j, pid, own.g);
    } else if own.Take? {
      TakeMatches(j, pid);
    } else if own.Finish? {
      FinishMatches(j, pid, own.w);
    } else if own.SchedulerStopped? {
      DrainMatches(j, pid);
    } else if j.ties.lock.Some? {
      LockMatches(j, pid);
    }
  }

  lemma CounterpartMatches(j: Joint, own: I.Label, pid: nat)
    requires own.Dequeue? ==> CanReturn(j, pid, own.task)
    requires HasTie(j.ties, own)
    ensures Matches(j, Label(Some(own), Counterpart(j.ties, own, pid)), pid)
  {
  }

  /** Whenever the inside can take a step, the protocol can take the step that goes with it, or nothing is
      to be seen of it there. A dequeue returns a task only if its transaction holds the lock. */
  lemma EveryStepMatches(j: Joint, own: I.Label, pid: nat)
    requires Inv(j, pid) && I.Enabled(j.inst, own)
    requires own.Dequeue? ==> CanReturn(j, pid, own.task)
    ensures Enabled(j, Label(Some(own), Counterpart(j.ties, own, pid)), pid)
  {
    CounterpartEnabled(j, own, pid);
    CounterpartMatches(j, own, pid);
  }

  // ---------------------------------------------------------------- the end of main

  lemma NobodyWorks(claims: map<nat, P.Claim>, pid: nat, workers: seq<I.Worker>, ks: seq<Option<nat>>, k: nat)
    requires WorkTied(claims, pid, workers, ks) && I.AllGone(workers)
    ensures Some(k) !in ks
  {
  }

  lemma NothingTied(claims: map<nat, P.Claim>, pid: nat, x: I.Inst, t: Ties, k: nat)
    requires ClaimsTied(claims, pid, PlacesOf(x), t) && I.AllOver(x.ticks) && x.queue == [] && I.AllGone(x.workers)
    ensures !Has(t, k)
  {
    I.NoHands(x.ticks);
    NobodyWorks(claims, pid, x.workers, t.work, k);
  }

  lemma StoppedIsEmpty(x: I.Inst)
    requires I.OrderOk(x) && |x.workers| >= 1 && x.main == I.Stopped
    ensures I.AllOver(x.ticks) && x.queue == [] && I.AllGone(x.workers)
  {
    assert x.workers[0].Gone?;
  }

  lemma NothingLeft(j: Joint, pid: nat)
    requires Inv(j, pid) && j.inst.main == I.Stopped
    ensures P.NoClaimsOf(j.sys, pid)
  {
    StoppedIsEmpty(j.inst);
    forall k | k in j.sys.claims ensures j.sys.claims[k].pid != pid {
      NothingTied(j.sys.claims, pid, j.inst, j.ties, k);
      assert Own(j.sys.claims, k, pid) ==> Has(j.ties, k);
    }
  }

  /** When main has come to its end, the process holds nothing, and may exit. */
  lemma StoppedMayExit(j: Joint, pid: nat)
    requires Inv(j, pid) && j.inst.main == I.Stopped
    ensures P.Enabled(j.sys, P.Exit(pid))
  {
    NothingLeft(j, pid);
  }

  // ---------------------------------------------------------------- joint runs

  const NOTHING := Ties(None, None, [], [])

  /** A process just started, whatever state the tables and the other processes were in. */
  ghost function Launched(n: int, s: P.Sys, spawn: P.Label): Joint
    requires P.Enabled(s, spawn) && spawn.Spawn?
  {
    var x := I.Started(n);
    Joint(x, P.Apply(s, spawn), NOTHING.(work := seq(|x.workers|, _ => None)))
  }

  ghost predicate Run(n: int, s: P.Sys, spawn: P.Label, states: seq<Joint>, labels: seq<Label>) {
    && Base(s) && P.Enabled(s, spawn) && spawn.Spawn?
    && |states| == |labels| + 1
    && states[0] == Launched(n, s, spawn)
    && forall i {:trigger labels[i]} | 0 <= i < |labels| :: Steps(states[i], labels[i], states[i + 1], spawn.pid)
  }

  ghost predicate Steps(j: Joint, l: Label, j': Joint, pid: nat) {
    Enabled(j, l, pid) && j' == Apply(j, l, pid)
  }

  lemma LaunchedTied(n: int, s: P.Sys, spawn: P.Label)
    requires Base(s) && P.Enabled(s, spawn) && spawn.Spawn?
    ensures Inv(Launched(n, s, spawn), spawn.pid)
  {
    I.StartedOk(n);
    BaseStep(s, spawn);
    NewPidOwnsNothing(s, spawn.pid);
    LaunchedClaims(s.claims, spawn.pid, n);
  }

  lemma NewPidOwnsNothing(s: P.Sys, pid: nat)
    requires Base(s) && pid !in s.procs
    ensures forall k: nat :: !Own(s.claims, k, pid)
  {
    forall k: nat ensures !Own(s.claims, k, pid) {
      assert k in s.claims ==> s.claims[k].pid in s.procs;
    }
  }

  lemma LaunchedClaims(claims: map<nat, P.Claim>, pid: nat, n: int)
    requires forall k: nat :: !Own(claims, k, pid)
    ensures ClaimsTied(claims, pid, PlacesOf(I.Started(n)), NOTHING.(work := seq(|I.Started(n).workers|, _ => None)))
  {
    I.NoHands(I.Started(n).ticks);
  }

  lemma {:induction false} InvRun(n: int, s: P.Sys, spawn: P.Label, states: seq<Joint>, labels: seq<Label>, i: nat)
    requires Run(n, s, spawn, states, labels) && i < |states|
    ensures Inv(states[i], spawn.pid)
  {
    if i == 0 {
      LaunchedTied(n, s, spawn);
    } else {
      InvRun(n, s, spawn, states, labels, i - 1);
      assert Steps(states[i - 1], labels[i - 1], states[i - 1 + 1], spawn.pid);
      InvStep(states[i - 1], labels[i - 1], spawn.pid);
    }
  }

  /** However the process was scheduled and whatever the rest of the system did meanwhile, once its main has
      come to its end it holds no task, and its exit is a step of the protocol. */
  lemma GracefulExit(n: int, s: P.Sys, spawn: P.Label, states: seq<Joint>, labels: seq<Label>, i: nat)
    requires Run(n, s, spawn, states, labels) && i < |states| && states[i].inst.main == I.Stopped
    ensures P.Enabled(states[i].sys, P.Exit(spawn.pid)) && P.NoClaimsOf(states[i].sys, spawn.pid)
  {
    InvRun(n, s, spawn, states, labels, i);
    NothingLeft(states[i], spawn.pid);
    StoppedMayExit(states[i], spawn.pid);
  }

  // ---------------------------------------------------------------- how much a process can hold

  function SetOf(ks: seq<nat>): set<nat> {
    if ks == [] then {} else {ks[0]} + SetOf(ks[1..])
  }

  function SomesOf(ks: seq<Option<nat>>): set<nat> {
    if ks == [] then {} else (if ks[0].Some? then {ks[0].value} else {}) + SomesOf(ks[1..])
  }

  lemma {:induction false} SetOfIs(ks: seq<nat>, k: nat)
    ensures |SetOf(ks)| <= |ks| && (k in ks ==> k in SetOf(ks))
  {
    if ks != [] {
      SetOfIs(ks[1..], k);
      assert ks == [ks[0]] + ks[1..];
    }
  }

  lemma {:induction false} SomesOfIs(ks: seq<Option<nat>>, k: nat)
    ensures |SomesOf(ks)| <= |ks| && (Some(k) in ks ==> k in SomesOf(ks))
  {
    if ks != [] {
      SomesOfIs(ks[1..], k);
      assert ks == [ks[0]] + ks[1..];
    }
  }

  function AtMostOne(k: Option<nat>): set<nat> {
    if k.Some? then {k.value} else {}
  }

  /** While a transaction is open nothing is being sent: it is one goroutine that does both. */
  lemma NotBoth(claims: map<nat, P.Claim>, pid: nat, x: I.Inst, t: Ties)
    requires I.GuardOk(x) && ClaimsTied(claims, pid, PlacesOf(x), t)
    ensures t.lock == None || t.hand == None
  {
    if t.lock.Some? && t.hand.Some? {
      var g :| 0 <= g < |x.ticks| && x.ticks[g].Dequeuing?;
      forall h | 0 <= h < |x.ticks| ensures !x.ticks[h].Sending? {
        assert I.Inside(x.ticks[g]);
        assert I.Inside(x.ticks[h]) ==> h == g;
      }
      I.NoHands(x.ticks);
    }
  }

  lemma OwnAreTied(claims: map<nat, P.Claim>, pid: nat, t: Ties)
    requires AllTied(claims, pid, t)
    ensures P.ClaimsOf(claims, pid) <= AtMostOne(t.lock) + AtMostOne(t.hand) + SetOf(t.queue) + SomesOf(t.work)
  {
    forall k: nat | k in P.ClaimsOf(claims, pid) ensures k in AtMostOne(t.lock) + AtMostOne(t.hand) + SetOf(t.queue) + SomesOf(t.work) {
      assert Own(claims, k, pid);
      SetOfIs(t.queue, k);
      SomesOfIs(t.work, k);
    }
  }

  lemma UnionSize(a: set<nat>, b: set<nat>)
    ensures |a + b| <= |a| + |b|
  {
    assert a + b == a + (b - a);
    assert b == (b - a) + (b * a);
  }

  lemma TiesAreFew(claims: map<nat, P.Claim>, pid: nat, x: I.Inst, t: Ties)
    requires I.GuardOk(x) && |x.queue| <= |x.workers| && ClaimsTied(claims, pid, PlacesOf(x), t)
    ensures |P.ClaimsOf(claims, pid)| <= 2 * |x.workers| + 1
  {
    var one := AtMostOne(t.lock) + AtMostOne(t.hand);
    NotBoth(claims, pid, x, t);
    OwnAreTied(claims, pid, t);
    SetOfIs(t.queue, 0);
    SomesOfIs(t.work, 0);
    UnionSize(AtMostOne(t.lock), AtMostOne(t.hand));
    UnionSize(one, SetOf(t.queue));
    UnionSize(one + SetOf(t.queue), SomesOf(t.work));
    SubsetSize(P.ClaimsOf(claims, pid), one + SetOf(t.queue) + SomesOf(t.work));
  }

  /** However many ticks fire and whatever the other instances do, the protocol never has more than two
      claims a worker and one more of this process, the open transaction included. */
  lemma HoldsFew(n: int, s: P.Sys, spawn: P.Label, states: seq<Joint>, labels: seq<Label>, i: nat)
    requires Run(n, s, spawn, states, labels) && i < |states|
    ensures |P.ClaimsOf(states[i].sys.claims, spawn.pid)| <= 2 * (if n < 1 then 1 else n) + 1
  {
    InvRun(n, s, spawn, states, labels, i);
    CrewRun(n, s, spawn, states, labels, i);
    TiesAreFew(states[i].sys.claims, spawn.pid, states[i].inst, states[i].ties);
  }

  lemma {:induction false} CrewRun(n: int, s: P.Sys, spawn: P.Label, states: seq<Joint>, labels: seq<Label>, i: nat)
    requires Run(n, s, spawn, states, labels) && i < |states|
    ensures |states[i].inst.workers| == if n < 1 then 1 else n
  {
    if i > 0 {
      CrewRun(n, s, spawn, states, labels, i - 1);
      assert Steps(states[i - 1], labels[i - 1], states[i - 1 + 1], spawn.pid);
      if labels[i - 1].own.Some? { I.SameCrew(states[i - 1].inst, labels[i - 1].own.value); }
    }
  }

  // ---------------------------------------------------------------- what is left in the table

  /** The steps of the protocol in the run are reliable, and so was what came before it. */
  ghost predicate IsReliable(s: P.Sys, spawn: P.Label, states: seq<Joint>, labels: seq<Label>)
    requires |states| == |labels| + 1
  {
    && Settled.SettledInv(s) && Recovery.AllAttended(s) && Recovery.ReliableStep(s, spawn)
    && forall i {:trigger labels[i]} | 0 <= i < |labels| && labels[i].step.Some? :: Recovery.ReliableStep(states[i].sys, labels[i].step.value)
  }

  ghost predicate Attended(s: P.Sys, pid: nat, name: string) {
    Settled.SettledInv(s) && Recovery.AllAttended(s) && pid in s.procs && s.procs[pid].name == name
  }

  lemma NameKept(s: P.Sys, l: P.Label, pid: nat)
    requires P.Enabled(s, l) && pid in s.procs && l != P.Exit(pid) && l != P.Crash(pid)
    ensures pid in P.ProcsAfter(s, l) && P.ProcsAfter(s, l)[pid].name == s.procs[pid].name
  {
  }

  lemma AttendedStep(s: P.Sys, l: P.Label, pid: nat, name: string)
    requires Attended(s, pid, name) && P.Enabled(s, l) && Recovery.ReliableStep(s, l) && l != P.Exit(pid) && l != P.Crash(pid)
    ensures Attended(P.Apply(s, l), pid, name)
  {
    Settled.SettledInvStep(s, l);
    Recovery.AllAttendedStep(s, l);
    NameKept(s, l, pid);
  }

  lemma LaunchedAttended(s: P.Sys, spawn: P.Label)
    requires Settled.SettledInv(s) && Recovery.AllAttended(s) && P.Enabled(s, spawn) && spawn.Spawn? && Recovery.ReliableStep(s, spawn)
    ensures Attended(P.Apply(s, spawn), spawn.pid, spawn.name)
  {
    Settled.SettledInvStep(s, spawn);
    Recovery.AllAttendedStep(s, spawn);
  }

  lemma JointAttended(j: Joint, l: Label, pid: nat, name: string)
    requires Enabled(j, l, pid) && Attended(j.sys, pid, name)
    requires l.step.Some? ==> Recovery.ReliableStep(j.sys, l.step.value)
    ensures Attended(Apply(j, l, pid).sys, pid, name)
  {
    if l.step.Some? {
      MatchesDrain(j, l, pid);
      AttendedStep(j.sys, l.step.value, pid, name);
    }
  }

  lemma RunAt(n: int, s: P.Sys, spawn: P.Label, states: seq<Joint>, labels: seq<Label>, i: nat)
    requires Run(n, s, spawn, states, labels) && IsReliable(s, spawn, states, labels) && 0 < i < |states|
    ensures var j, l := states[i - 1], labels[i - 1];
            && Enabled(j, l, spawn.pid) && states[i] == Apply(j, l, spawn.pid)
            && (l.step.Some? ==> Recovery.ReliableStep(j.sys, l.step.value))
  {
    assert Steps(states[i - 1], labels[i - 1], states[i - 1 + 1], spawn.pid);
  }

  lemma {:induction false} AttendedRun(n: int, s: P.Sys, spawn: P.Label, states: seq<Joint>, labels: seq<Label>, i: nat)
    requires Run(n, s, spawn, states, labels) && IsReliable(s, spawn, states, labels) && i < |states|
    ensures Attended(states[i].sys, spawn.pid, spawn.name)
  {
    if i == 0 {
      LaunchedAttended(s, spawn);
    } else {
      AttendedRun(n, s, spawn, states, labels, i - 1);
      RunAt(n, s, spawn, states, labels, i);
      JointAttended(states[i - 1], labels[i - 1], spawn.pid, spawn.name);
    }
  }

  /** Graceful shutdown, from the signal to the table: in a settled system whose writes work, when main has
      come to its end no row is running in the name of this instance. */
  lemma NoRowLeftRunning(n: int, s: P.Sys, spawn: P.Label, states: seq<Joint>, labels: seq<Label>, i: nat)
    requires Run(n, s, spawn, states, labels) && IsReliable(s, spawn, states, labels)
    requires i < |states| && states[i].inst.main == I.Stopped
    ensures forall id | id in states[i].sys.db.tasks :: !IsOrphanOf(states[i].sys.db.tasks[id], spawn.name)
  {
    GracefulExit(n, s, spawn, states, labels, i);
    AttendedRun(n, s, spawn, states, labels, i);
    Recovery.NothingLeftRunning(states[i].sys, spawn.pid);
  }
}
