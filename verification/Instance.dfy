/** One instance from the inside: goroutines fired by a ticker and kept apart by isScheduling, a
    bounded channel, N workers, and the order in which main stops them. */
module Instances {
  import opened Tasks

  /** A tick's goroutine. Past the guard it goes round: look at the context, dequeue, send. */
  datatype Pc = AtGuard | AtCheck | Dequeuing | Sending(task: Task) | Over

  datatype Worker = Idle | Busy(task: Task) | Gone

  /** Where main is in its sequence of deferred stops. */
  datatype Main = Serving | AwaitScheduler | BeforePool | AwaitPool | Stopped

  datatype Inst = Inst(
    main: Main,
    looping: bool,         // the ticker loop
    cancelled: bool,       // the scheduler's context
    isScheduling: bool,
    ticks: seq<Pc>,        // every goroutine ever fired
    queue: seq<Task>,      // the channel, with room for one task per worker
    closed: bool,
    workers: seq<Worker>,
    released: bool,        // the pool's context
    panicked: bool,        // somebody sent on the closed channel
    dequeued: seq<Task>,   // all the tasks the scheduler ever dequeued, in order
    taken: seq<Task>,      // all the tasks workers ever took from the channel, in order
    processed: multiset<Task>,
    refused: nat)

  datatype Label =
    | Tick
    | LoopExit
    | Enter(g: nat)
    | Bounce(g: nat)
    | Check(g: nat)
    | Dequeue(g: nat, task: Task)
    | DequeueNone(g: nat)             // empty queue, or an error
    | Send(g: nat)
    | SendClosed(g: nat)
    | Refuse(g: nat)
    | Leave(g: nat)                   // end of the pass, failed listing, or context done
    | Take(w: nat)
    | Finish(w: nat)
    | Retire(w: nat)
    | StopScheduler
    | SchedulerStopped
    | StopPool
    | PoolStopped

  predicate TickAt(s: Inst, g: nat, pc: Pc) {
    g < |s.ticks| && s.ticks[g] == pc
  }

  predicate IsSending(s: Inst, g: nat) {
    g < |s.ticks| && s.ticks[g].Sending?
  }

  predicate WorkerAt(s: Inst, w: nat, k: Worker) {
    w < |s.workers| && s.workers[w] == k
  }

  predicate Enabled(s: Inst, l: Label) {
    && !s.panicked
    && match l
       case Tick => s.looping      // the select may pick the ticker even when the context is done
       case LoopExit => s.looping && s.cancelled
       case Enter(g) => TickAt(s, g, AtGuard) && !s.isScheduling
       case Bounce(g) => TickAt(s, g, AtGuard) && s.isScheduling
       case Check(g) => TickAt(s, g, AtCheck) && !s.cancelled
       case Dequeue(g, _) => TickAt(s, g, Dequeuing)
       case DequeueNone(g) => TickAt(s, g, Dequeuing)
       case Send(g) => IsSending(s, g) && !s.closed && |s.queue| < |s.workers|
       case SendClosed(g) => IsSending(s, g) && s.closed
       case Refuse(g) => IsSending(s, g) && s.released
       case Leave(g) => TickAt(s, g, AtCheck)
       case Take(w) => WorkerAt(s, w, Idle) && s.queue != []
       case Finish(w) => w < |s.workers| && s.workers[w].Busy?
       case Retire(w) => WorkerAt(s, w, Idle) && s.closed && s.queue == []
       case StopScheduler => s.main == Serving
       case SchedulerStopped => s.main == AwaitScheduler && !s.looping && AllOver(s.ticks)
       case StopPool => s.main == BeforePool
       case PoolStopped => s.main == AwaitPool && AllGone(s.workers)
  }

  predicate AllOver(ticks: seq<Pc>) {
    forall g | 0 <= g < |ticks| :: ticks[g].Over?
  }

  predicate AllGone(workers: seq<Worker>) {
    forall w | 0 <= w < |workers| :: workers[w].Gone?
  }

  function TicksAfter(s: Inst, l: Label): seq<Pc>
    requires Enabled(s, l)
  {
    match l
    case Tick => s.ticks + [AtGuard]
    case Enter(g) => s.ticks[g := AtCheck]
    case Bounce(g) => s.ticks[g := Over]
    case Check(g) => s.ticks[g := Dequeuing]
    case Dequeue(g, t) => s.ticks[g := Sending(t)]
    case DequeueNone(g) => s.ticks[g := AtCheck]
    case Send(g) => s.ticks[g := AtCheck]
    case Refuse(g) => s.ticks[g := Over]
    case Leave(g) => s.ticks[g := Over]
    case _ => s.ticks
  }

  function QueueAfter(s: Inst, l: Label): seq<Task>
    requires Enabled(s, l)
  {
    match l
    case Send(g) => s.queue + [s.ticks[g].task]
    case Take(_) => s.queue[1..]
    case _ => s.queue
  }

  function WorkersAfter(s: Inst, l: Label): seq<Worker>
    requires Enabled(s, l)
  {
    match l
    case Take(w) => s.workers[w := Busy(s.queue[0])]
    case Finish(w) => s.workers[w := Idle]
    case Retire(w) => s.workers[w := Gone]
    case _ => s.workers
  }

  function MainAfter(s: Inst, l: Label): Main {
    match l
    case StopScheduler => AwaitScheduler
    case SchedulerStopped => BeforePool
    case StopPool => AwaitPool
    case PoolStopped => Stopped
    case _ => s.main
  }

  function Apply(s: Inst, l: Label): Inst
    requires Enabled(s, l)
  {
    Inst(MainAfter(s, l),
         s.looping && !l.LoopExit?,
         s.cancelled || l.StopScheduler?,
         if l.Refuse? || l.Leave? then false else s.isScheduling || l.Enter?,
         TicksAfter(s, l),
         QueueAfter(s, l),
         s.closed || l.StopPool?,
         WorkersAfter(s, l),
         s.released || l.PoolStopped?,
         s.panicked || l.SendClosed?,
         if l.Dequeue? then s.dequeued + [l.task] else s.dequeued,
         if l.Take? then s.taken + [s.queue[0]] else s.taken,
         if l.Finish? then s.processed + multiset{s.workers[l.w].task} else s.processed,
         if l.Refuse? then s.refused + 1 else s.refused)
  }

  /** An instance just started with n workers, or with one if n is less. */
  function Started(n: int): Inst {
    Inst(Serving, true, false, false, [], [], false, seq(if n < 1 then 1 else n, _ => Idle), false, false, [], [], multiset{}, 0)
  }

  ghost predicate Run(n: int, states: seq<Inst>, labels: seq<Label>) {
    && |states| == |labels| + 1
    && states[0] == Started(n)
    && forall i {:trigger labels[i]} | 0 <= i < |labels| :: Steps(states[i], labels[i], states[i + 1])
  }

  ghost predicate Steps(s: Inst, l: Label, s': Inst) {
    Enabled(s, l) && s' == Apply(s, l)
  }

  lemma RunStep(n: int, states: seq<Inst>, labels: seq<Label>, i: nat)
    requires Run(n, states, labels) && 0 < i < |states|
    ensures Steps(states[i - 1], labels[i - 1], states[i])
  {
    assert Steps(states[i - 1], labels[i - 1], states[i - 1 + 1]);
  }

  // ---------------------------------------------------------------- what is where

  predicate Inside(pc: Pc) {
    pc.AtCheck? || pc.Dequeuing? || pc.Sending?
  }

  /** The tasks dequeued and not yet sent, goroutine by goroutine. */
  function Hands(ticks: seq<Pc>): seq<Task> {
    if ticks == [] then []
    else Hands(ticks[..|ticks| - 1]) + (if ticks[|ticks| - 1].Sending? then [ticks[|ticks| - 1].task] else [])
  }

  function Working(workers: seq<Worker>): multiset<Task> {
    if workers == [] then multiset{}
    else Working(workers[..|workers| - 1]) + Load(workers[|workers| - 1])
  }

  function Load(k: Worker): multiset<Task> {
    if k.Busy? then multiset{k.task} else multiset{}
  }

  lemma {:induction false} NoHands(ticks: seq<Pc>)
    requires forall g | 0 <= g < |ticks| :: !ticks[g].Sending?
    ensures Hands(ticks) == []
  {
    if ticks != [] { NoHands(ticks[..|ticks| - 1]); }
  }

  lemma {:induction false} OneHand(ticks: seq<Pc>, g: nat)
    requires g < |ticks| && ticks[g].Sending? && forall h | 0 <= h < |ticks| && h != g :: !ticks[h].Sending?
    ensures Hands(ticks) == [ticks[g].task]
  {
    if g == |ticks| - 1 {
      NoHands(ticks[..|ticks| - 1]);
    } else {
      OneHand(ticks[..|ticks| - 1], g);
    }
  }

  lemma Exchange<T>(a: multiset<T>, x: multiset<T>, b: multiset<T>, y: multiset<T>, z: multiset<T>)
    requires a + x == b + y
    ensures a + z + x == b + z + y
  {
    assert a + z + x == (a + x) + z;
    assert b + z + y == (b + y) + z;
  }

  lemma WorkingOf(workers: seq<Worker>, init: seq<Worker>, k: Worker)
    requires workers == init + [k]
    ensures Working(workers) == Working(init) + Load(k)
  {
    assert workers[..|workers| - 1] == init;
  }

  lemma {:induction false} WorkingUpdate(workers: seq<Worker>, w: nat, k: Worker)
    requires w < |workers|
    ensures Working(workers[w := k]) + Load(workers[w]) == Working(workers) + Load(k)
  {
    var n := |workers| - 1;
    var init := workers[..n];
    WorkingOf(workers, init, workers[n]);
    if w == n {
      WorkingOf(workers[w := k], init, k);
    } else {
      WorkingUpdate(init, w, k);
      WorkingOf(workers[w := k], init[w := k], workers[n]);
      Exchange(Working(init[w := k]), Load(workers[w]), Working(init), Load(k), Load(workers[n]));
    }
  }

  lemma {:induction false} WorkingSize(workers: seq<Worker>)
    ensures |Working(workers)| <= |workers|
    ensures AllGone(workers) ==> Working(workers) == multiset{}
  {
    if workers != [] { WorkingSize(workers[..|workers| - 1]); }
  }

  lemma {:induction false} NoneWorking(workers: seq<Worker>)
    requires forall w | 0 <= w < |workers| :: workers[w].Idle?
    ensures Working(workers) == multiset{}
  {
    if workers != [] { NoneWorking(workers[..|workers| - 1]); }
  }

  // ---------------------------------------------------------------- the invariant

  /** Mutual exclusion: the flag is up exactly when somebody is past the guard, and only one is. */
  ghost predicate GuardOk(s: Inst) {
    && (s.isScheduling <==> exists g :: 0 <= g < |s.ticks| && Inside(s.ticks[g]))
    && (forall g, h | 0 <= g < |s.ticks| && 0 <= h < |s.ticks| && Inside(s.ticks[g]) && Inside(s.ticks[h]) :: g == h)
  }

  ghost predicate OrderOk(s: Inst) {
    && (s.cancelled <==> s.main != Serving) && (!s.cancelled ==> s.looping)
    && (s.main in {BeforePool, AwaitPool, Stopped} ==> !s.looping && AllOver(s.ticks))
    && (s.closed <==> s.main in {AwaitPool, Stopped})
    && (s.released <==> s.main == Stopped)
    && (s.main == Stopped ==> AllGone(s.workers))
    && (forall w | 0 <= w < |s.workers| && s.workers[w].Gone? :: s.closed && s.queue == [])
    && !s.panicked && s.refused == 0
  }

  /** First in, first out, with nothing lost on the way. */
  predicate FlowOk(s: Inst) {
    && s.dequeued == s.taken + s.queue + Hands(s.ticks)
    && LoadOk(s.taken, s.processed, s.workers)
    && |s.queue| <= |s.workers|
  }

  ghost predicate Inv(s: Inst) {
    GuardOk(s) && OrderOk(s) && FlowOk(s)
  }

  lemma GuardStep(s: Inst, l: Label)
    requires GuardOk(s) && Enabled(s, l)
    ensures GuardOk(Apply(s, l))
  {
    var s' := Apply(s, l);
    if s.isScheduling {
      var g :| 0 <= g < |s.ticks| && Inside(s.ticks[g]);
      assert |s.ticks| <= |s'.ticks| && (Inside(s'.ticks[g]) <==> s'.isScheduling);
    } else if l.Enter? {
      assert Inside(s'.ticks[l.g]);
    }
  }

  lemma OrderStep(s: Inst, l: Label)
    requires OrderOk(s) && Enabled(s, l)
    ensures OrderOk(Apply(s, l))
  {
  }

  /** The same goroutines have the same tasks in hand; those that have come since have none. */
  ghost predicate SameSenders(a: seq<Pc>, b: seq<Pc>) {
    && |a| <= |b|
    && (forall g | 0 <= g < |a| && (a[g].Sending? || b[g].Sending?) :: a[g] == b[g])
    && (forall g | |a| <= g < |b| :: !b[g].Sending?)
  }

  lemma {:induction false} SameHands(a: seq<Pc>, b: seq<Pc>)
    requires SameSenders(a, b)
    ensures Hands(a) == Hands(b)
  {
    if |a| < |b| {
      SameHands(a, b[..|b| - 1]);
    } else if a != [] {
      SameHands(a[..|a| - 1], b[..|b| - 1]);
    }
  }

  lemma SendersStay(s: Inst, l: Label)
    requires Enabled(s, l) && !l.Dequeue? && !l.Send? && !l.Refuse?
    ensures SameSenders(s.ticks, TicksAfter(s, l))
  {
  }

  lemma HandsChange(s: Inst, l: Label)
    requires GuardOk(s) && Enabled(s, l) && (l.Dequeue? || l.Send?)
    ensures Hands(s.ticks) == if l.Send? then [s.ticks[l.g].task] else []
    ensures Hands(TicksAfter(s, l)) == if l.Dequeue? then [l.task] else []
  {
    if l.Dequeue? {
      NoHands(s.ticks);
      OneHand(TicksAfter(s, l), l.g);
    } else {
      OneHand(s.ticks, l.g);
      NoHands(TicksAfter(s, l));
    }
  }

  /** What is in the hands of the goroutines changes only when one dequeues or sends. */
  lemma HandsStep(s: Inst, l: Label)
    requires GuardOk(s) && Enabled(s, l) && !l.Refuse?
    ensures Hands(TicksAfter(s, l)) ==
              if l.Dequeue? then [l.task] else if l.Send? then [] else Hands(s.ticks)
    ensures l.Send? ==> Hands(s.ticks) == [s.ticks[l.g].task]
    ensures l.Dequeue? ==> Hands(s.ticks) == []
  {
    if l.Dequeue? || l.Send? {
      HandsChange(s, l);
    } else {
      SendersStay(s, l);
      SameHands(s.ticks, TicksAfter(s, l));
    }
  }

  /** What workers took is what they have processed and what they are working on. */
  predicate LoadOk(taken: seq<Task>, processed: multiset<Task>, workers: seq<Worker>) {
    multiset(taken) == processed + Working(workers)
  }

  lemma TakeLoad(taken: seq<Task>, processed: multiset<Task>, workers: seq<Worker>, w: nat, t: Task)
    requires w < |workers| && workers[w].Idle? && LoadOk(taken, processed, workers)
    ensures LoadOk(taken + [t], processed, workers[w := Busy(t)])
  {
    WorkingUpdate(workers, w, Busy(t));
    assert Working(workers[w := Busy(t)]) == Working(workers) + multiset{t};
    assert processed + (Working(workers) + multiset{t}) == multiset(taken) + multiset{t};
  }

  lemma FinishLoad(taken: seq<Task>, processed: multiset<Task>, workers: seq<Worker>, w: nat)
    requires w < |workers| && workers[w].Busy? && LoadOk(taken, processed, workers)
    ensures LoadOk(taken, processed + multiset{workers[w].task}, workers[w := Idle])
  {
    WorkingUpdate(workers, w, Idle);
    var got := multiset{workers[w].task};
    assert Working(workers[w := Idle]) + got == Working(workers);
    assert processed + (Working(workers[w := Idle]) + got) == processed + got + Working(workers[w := Idle]);
  }

  lemma RetireLoad(taken: seq<Task>, processed: multiset<Task>, workers: seq<Worker>, w: nat)
    requires w < |workers| && workers[w].Idle? && LoadOk(taken, processed, workers)
    ensures LoadOk(taken, processed, workers[w := Gone])
  {
    WorkingUpdate(workers, w, Gone);
    assert Working(workers[w := Gone]) + multiset{} == Working(workers[w := Gone]);
    assert Working(workers) + multiset{} == Working(workers);
  }

  lemma ChannelStep(s: Inst, l: Label, hands: seq<Task>, hands': seq<Task>)
    requires Enabled(s, l) && s.dequeued == s.taken + s.queue + hands
    requires l.Dequeue? ==> hands == [] && hands' == [l.task]
    requires l.Send? ==> hands == [s.ticks[l.g].task] && hands' == []
    requires !l.Dequeue? && !l.Send? ==> hands' == hands
    ensures (if l.Dequeue? then s.dequeued + [l.task] else s.dequeued) ==
              (if l.Take? then s.taken + [s.queue[0]] else s.taken) + QueueAfter(s, l) + hands'
  {
    if l.Take? {
      assert s.taken + s.queue == (s.taken + [s.queue[0]]) + s.queue[1..];
    }
  }

  lemma LoadStep(s: Inst, l: Label)
    requires Enabled(s, l) && LoadOk(s.taken, s.processed, s.workers)
    ensures LoadOk(if l.Take? then s.taken + [s.queue[0]] else s.taken,
                   if l.Finish? then s.processed + multiset{s.workers[l.w].task} else s.processed,
                   WorkersAfter(s, l))
  {
    if l.Take? {
      TakeLoad(s.taken, s.processed, s.workers, l.w, s.queue[0]);
    } else if l.Finish? {
      FinishLoad(s.taken, s.processed, s.workers, l.w);
    } else if l.Retire? {
      RetireLoad(s.taken, s.processed, s.workers, l.w);
    }
  }

  lemma QueueStep(s: Inst, l: Label)
    requires Enabled(s, l) && |s.queue| <= |s.workers|
    ensures |QueueAfter(s, l)| <= |WorkersAfter(s, l)|
  {
  }

  lemma FlowStep(s: Inst, l: Label)
    requires GuardOk(s) && FlowOk(s) && Enabled(s, l) && !l.Refuse?
    ensures FlowOk(Apply(s, l))
  {
    HandsStep(s, l);
    LoadStep(s, l);
    QueueStep(s, l);
    ChannelStep(s, l, Hands(s.ticks), Hands(TicksAfter(s, l)));
  }

  lemma InvStep(s: Inst, l: Label)
    requires Inv(s) && Enabled(s, l)
    ensures Inv(Apply(s, l))
  {
    GuardStep(s, l);
    OrderStep(s, l);
    FlowStep(s, l);
  }

  lemma SameCrew(s: Inst, l: Label)
    requires Enabled(s, l)
    ensures |WorkersAfter(s, l)| == |s.workers|
  {
  }

  lemma StartedOk(n: int)
    ensures Inv(Started(n)) && |Started(n).workers| == (if n < 1 then 1 else n)
  {
    NoneWorking(Started(n).workers);
  }

  lemma {:induction false} InvRun(n: int, states: seq<Inst>, labels: seq<Label>, i: nat)
    requires Run(n, states, labels) && i < |states|
    ensures Inv(states[i]) && |states[i].workers| == (if n < 1 then 1 else n)
  {
    if i == 0 {
      StartedOk(n);
    } else {
      InvRun(n, states, labels, i - 1);
      RunStep(n, states, labels, i);
      InvStep(states[i - 1], labels[i - 1]);
      SameCrew(states[i - 1], labels[i - 1]);
    }
  }

  // ---------------------------------------------------------------- what it gives

  /** However many ticks fire: at most one goroutine is past the guard, the flag says so exactly,
      and the instance holds at most two tasks per worker and one more. */
  lemma InFlightBound(n: int, states: seq<Inst>, labels: seq<Label>, i: nat)
    requires Run(n, states, labels) && i < |states|
    ensures var s := states[i];
            && (s.isScheduling <==> exists g :: 0 <= g < |s.ticks| && Inside(s.ticks[g]))
            && (forall g, h | 0 <= g < |s.ticks| && 0 <= h < |s.ticks| && Inside(s.ticks[g]) && Inside(s.ticks[h]) :: g == h)
            && s.processed <= multiset(s.dequeued)
            && |s.dequeued| <= |s.processed| + 2 * (if n < 1 then 1 else n) + 1
  {
    InvRun(n, states, labels, i);
    HeldUp(states[i]);
  }

  lemma HeldUp(s: Inst)
    requires GuardOk(s) && FlowOk(s)
    ensures s.processed <= multiset(s.dequeued) && |s.dequeued| <= |s.processed| + 2 * |s.workers| + 1
  {
    WorkingSize(s.workers);
    if g :| 0 <= g < |s.ticks| && s.ticks[g].Sending? {
      OneHand(s.ticks, g);
    } else {
      NoHands(s.ticks);
    }
    Counts(s);
  }

  lemma Counts(s: Inst)
    requires FlowOk(s)
    ensures multiset(s.dequeued) == s.processed + Working(s.workers) + multiset(s.queue) + multiset(Hands(s.ticks))
    ensures |s.dequeued| == |s.processed| + |Working(s.workers)| + |s.queue| + |Hands(s.ticks)|
  {
    assert multiset(s.taken + s.queue + Hands(s.ticks)) == multiset(s.taken) + multiset(s.queue) + multiset(Hands(s.ticks));
    assert |multiset(s.taken)| == |s.taken|;
    assert |s.processed + Working(s.workers)| == |s.processed| + |Working(s.workers)|;
  }

  /** Workers take tasks in the order in which the scheduler dequeued them. */
  lemma FirstInFirstOut(n: int, states: seq<Inst>, labels: seq<Label>, i: nat)
    requires Run(n, states, labels) && i < |states|
    ensures states[i].taken <= states[i].dequeued
  {
    InvRun(n, states, labels, i);
  }

  /** Graceful shutdown: nothing is ever sent on the closed channel or refused by the pool, and when
      Pool.Stop has returned, every task the scheduler dequeued has been processed exactly once. */
  lemma GracefulShutdown(n: int, states: seq<Inst>, labels: seq<Label>, i: nat)
    requires Run(n, states, labels) && i < |states|
    ensures !states[i].panicked && states[i].refused == 0
    ensures forall g :: !Enabled(states[i], SendClosed(g)) && !Enabled(states[i], Refuse(g))
    ensures states[i].main == Stopped ==> states[i].processed == multiset(states[i].dequeued)
  {
    InvRun(n, states, labels, i);
    forall g ensures !Enabled(states[i], SendClosed(g)) && !Enabled(states[i], Refuse(g)) {
      NeverTooLate(states[i], g);
    }
    if states[i].main == Stopped {
      AllProcessed(states[i]);
    }
  }

  lemma NeverTooLate(s: Inst, g: nat)
    requires OrderOk(s)
    ensures !Enabled(s, SendClosed(g)) && !Enabled(s, Refuse(g))
  {
  }

  lemma AllProcessed(s: Inst)
    requires OrderOk(s) && FlowOk(s) && s.main == Stopped && |s.workers| >= 1
    ensures s.processed == multiset(s.dequeued)
  {
    NoHands(s.ticks);
    WorkingSize(s.workers);
    Counts(s);
    assert s.workers[0].Gone?;
  }

  // ---------------------------------------------------------------- stopping takes effect, and ends

  predicate Claiming(s: Inst) {
    exists g | 0 <= g < |s.ticks| :: s.ticks[g].Dequeuing?
  }

  lemma NoLateClaim(s: Inst, l: Label)
    requires Inv(s) && Enabled(s, l) && s.cancelled
    ensures var s' := Apply(s, l);
            s'.cancelled && |s'.dequeued| + (if Claiming(s') then 1 else 0) <= |s.dequeued| + (if Claiming(s) then 1 else 0)
  {
    var s' := Apply(s, l);
    if l.Dequeue? {
      assert s.ticks[l.g].Dequeuing?;
    }
    if g :| 0 <= g < |s'.ticks| && s'.ticks[g].Dequeuing? {
      assert g < |s.ticks| && s.ticks[g].Dequeuing?;
    }
  }

  lemma {:induction false} ClaimsAfterCancel(n: int, states: seq<Inst>, labels: seq<Label>, i: nat, j: nat)
    requires Run(n, states, labels) && i <= j < |states| && states[i].cancelled
    ensures states[j].cancelled
    ensures |states[j].dequeued| + (if Claiming(states[j]) then 1 else 0) <= |states[i].dequeued| + (if Claiming(states[i]) then 1 else 0)
    decreases j
  {
    if i < j {
      ClaimsAfterCancel(n, states, labels, i, j - 1);
      InvRun(n, states, labels, j - 1);
      RunStep(n, states, labels, j);
      NoLateClaim(states[j - 1], labels[j - 1]);
    }
  }

  /** Once the scheduler has been told to stop, at most one more task is dequeued. */
  lemma StopsPromptly(n: int, states: seq<Inst>, labels: seq<Label>, i: nat, j: nat)
    requires Run(n, states, labels) && i <= j < |states| && states[i].cancelled
    ensures |states[j].dequeued| <= |states[i].dequeued| + 1
  {
    ClaimsAfterCancel(n, states, labels, i, j);
  }

  function PcWork(pc: Pc): nat {
    match pc case AtGuard => 2 case AtCheck => 1 case Dequeuing => 6 case Sending(_) => 5 case Over => 0
  }

  function TickWork(ticks: seq<Pc>): nat {
    if ticks == [] then 0 else TickWork(ticks[..|ticks| - 1]) + PcWork(ticks[|ticks| - 1])
  }

  function HandWork(k: Worker): nat {
    match k case Busy(_) => 2 case Idle => 1 case Gone => 0
  }

  function WorkerWork(workers: seq<Worker>): nat {
    if workers == [] then 0 else WorkerWork(workers[..|workers| - 1]) + HandWork(workers[|workers| - 1])
  }

  lemma {:induction false} TickWorkUpdate(ticks: seq<Pc>, g: nat, pc: Pc)
    requires g < |ticks|
    ensures TickWork(ticks[g := pc]) == TickWork(ticks) - PcWork(ticks[g]) + PcWork(pc)
  {
    var init := ticks[..|ticks| - 1];
    if g == |ticks| - 1 {
      assert ticks[g := pc][..|ticks| - 1] == init;
    } else {
      TickWorkUpdate(init, g, pc);
      assert ticks[g := pc][..|ticks| - 1] == init[g := pc];
    }
  }

  lemma {:induction false} WorkerWorkUpdate(workers: seq<Worker>, w: nat, k: Worker)
    requires w < |workers|
    ensures WorkerWork(workers[w := k]) == WorkerWork(workers) - HandWork(workers[w]) + HandWork(k)
  {
    var init := workers[..|workers| - 1];
    if w == |workers| - 1 {
      assert workers[w := k][..|workers| - 1] == init;
    } else {
      WorkerWorkUpdate(init, w, k);
      assert workers[w := k][..|workers| - 1] == init[w := k];
    }
  }

  function MainWork(m: Main): nat {
    match m case Serving => 4 case AwaitScheduler => 3 case BeforePool => 2 case AwaitPool => 1 case Stopped => 0
  }

  /** What is left to do before the instance is down. */
  function Remaining(s: Inst): nat {
    MainWork(s.main) + (if s.looping then 1 else 0) + TickWork(s.ticks) + 3 * |s.queue| + WorkerWork(s.workers)
  }

  lemma TicksBefore(ticks: seq<Pc>, pc: Pc)
    ensures TickWork(ticks + [pc]) == TickWork(ticks) + PcWork(pc)
  {
    assert (ticks + [pc])[..|ticks|] == ticks;
  }

  lemma TickWorkStep(s: Inst, l: Label)
    requires Enabled(s, l) && s.cancelled
    ensures TickWork(TicksAfter(s, l)) <= TickWork(s.ticks) + TickCost(l)
  {
    match l {
      case Tick => TicksBefore(s.ticks, AtGuard);
      case Enter(g) => TickWorkUpdate(s.ticks, g, AtCheck);
      case Bounce(g) => TickWorkUpdate(s.ticks, g, Over);
      case Dequeue(g, t) => TickWorkUpdate(s.ticks, g, Sending(t));
      case DequeueNone(g) => TickWorkUpdate(s.ticks, g, AtCheck);
      case Send(g) => TickWorkUpdate(s.ticks, g, AtCheck);
      case Refuse(g) => TickWorkUpdate(s.ticks, g, Over);
      case Leave(g) => TickWorkUpdate(s.ticks, g, Over);
      case _ =>
    }
  }

  function TickCost(l: Label): int {
    match l
    case Tick => 2
    case Enter(_) => -1
    case Bounce(_) => -2
    case Dequeue(_, _) => -1
    case DequeueNone(_) => -5
    case Send(_) => -4
    case Refuse(_) => -5
    case Leave(_) => -1
    case _ => 0
  }

  lemma WorkerWorkStep(s: Inst, l: Label)
    requires Enabled(s, l)
    ensures WorkerWork(WorkersAfter(s, l)) == WorkerWork(s.workers) + (if l.Take? then 1 else if l.Finish? || l.Retire? then -1 else 0)
  {
    match l {
      case Take(w) => WorkerWorkUpdate(s.workers, w, Busy(s.queue[0]));
      case Finish(w) => WorkerWorkUpdate(s.workers, w, Idle);
      case Retire(w) => WorkerWorkUpdate(s.workers, w, Gone);
      case _ =>
    }
  }

  lemma MainWorkStep(s: Inst, l: Label)
    requires OrderOk(s) && Enabled(s, l) && s.cancelled
    ensures MainWork(MainAfter(s, l)) + (if s.looping && !l.LoopExit? then 1 else 0) ==
              MainWork(s.main) + (if s.looping then 1 else 0)
              - (if l.LoopExit? || l.SchedulerStopped? || l.StopPool? || l.PoolStopped? then 1 else 0)
    ensures !l.StopScheduler? && !l.SendClosed? && !l.Check?
  {
  }

  /** During shutdown every step but another tick leaves less to do. */
  lemma ShutdownDescends(s: Inst, l: Label)
    requires Inv(s) && Enabled(s, l) && s.cancelled
    ensures Remaining(Apply(s, l)) <= Remaining(s) + (if l.Tick? then 2 else -1)
  {
    TickWorkStep(s, l);
    WorkerWorkStep(s, l);
    MainWorkStep(s, l);
  }

  /** The step a worker can take, if its queue is closed or has something in it. */
  lemma WorkerCanMove(s: Inst, w: nat) returns (l: Label)
    requires Inv(s) && w < |s.workers| && !s.workers[w].Gone? && (s.closed || s.queue != [])
    ensures Enabled(s, l) && !l.Tick?
  {
    l := if s.workers[w].Busy? then Label.Finish(w) else if s.queue != [] then Take(w) else Retire(w);
  }

  /** A goroutine can always move, or a worker can move to make room for it. */
  lemma TickCanMove(s: Inst, g: nat) returns (l: Label)
    requires Inv(s) && |s.workers| >= 1 && g < |s.ticks| && !s.ticks[g].Over?
    ensures Enabled(s, l) && !l.Tick?
  {
    match s.ticks[g] {
      case AtGuard => l := if s.isScheduling then Bounce(g) else Enter(g);
      case AtCheck => l := Leave(g);
      case Dequeuing => l := DequeueNone(g);
      case Sending(_) =>
        if |s.queue| < |s.workers| {
          l := Send(g);
        } else {
          assert !s.workers[0].Gone?;
          l := WorkerCanMove(s, 0);
        }
    }
  }

  /** Shutdown never gets stuck: a full channel, a late tick or a busy worker always leaves
      somebody a step to take. */
  lemma ShutdownCanMove(s: Inst) returns (l: Label)
    requires Inv(s) && |s.workers| >= 1 && s.cancelled && s.main != Stopped
    ensures Enabled(s, l) && !l.Tick?
  {
    if g :| 0 <= g < |s.ticks| && !s.ticks[g].Over? {
      l := TickCanMove(s, g);
    } else if s.looping {
      l := LoopExit;
    } else if w :| 0 <= w < |s.workers| && !s.workers[w].Gone? && s.closed {
      l := WorkerCanMove(s, w);
    } else {
      l := match s.main case AwaitScheduler => SchedulerStopped case BeforePool => StopPool case _ => PoolStopped;
    }
  }

  // ---------------------------------------------------------------- who waits

  /** A step of this goroutine. */
  predicate OfTick(l: Label, g: nat) {
    l in {Enter(g), Bounce(g), Check(g), DequeueNone(g), Send(g), SendClosed(g), Refuse(g), Leave(g)} || (l.Dequeue? && l.g == g)
  }

  predicate OfWorker(l: Label, w: nat) {
    l in {Take(w), Label.Finish(w), Retire(w)}
  }

  /** Any idle worker can take the first task of the channel, any busy one finish, and any idle one retire
      when the channel is closed and empty; it waits exactly when the channel is open and empty. */
  lemma WorkerWaits(s: Inst, w: nat)
    requires Inv(s) && w < |s.workers| && !s.workers[w].Gone?
    ensures s.workers[w].Busy? ==> Enabled(s, Label.Finish(w)) && Apply(s, Label.Finish(w)).workers[w] == Idle
    ensures s.workers[w] == Idle && s.queue != [] ==>
              Enabled(s, Take(w)) && Apply(s, Take(w)).workers[w] == Busy(s.queue[0]) && Apply(s, Take(w)).queue == s.queue[1..]
    ensures s.workers[w] == Idle && s.queue == [] && s.closed ==> Enabled(s, Retire(w))
    ensures (forall l | OfWorker(l, w) :: !Enabled(s, l)) <==> s.workers[w] == Idle && s.queue == [] && !s.closed
  {
    if s.workers[w].Busy? {
      assert OfWorker(Label.Finish(w), w);
    } else {
      assert OfWorker(Take(w), w) && OfWorker(Retire(w), w);
    }
  }

  /** A goroutine goes past the guard exactly when no pass is running, and otherwise ends at once; it may
      go on to dequeue unless the scheduler is being stopped; it waits exactly when it has a task to send and
      the channel is full. */
  lemma TickWaits(s: Inst, g: nat)
    requires Inv(s) && g < |s.ticks| && !s.ticks[g].Over?
    ensures s.ticks[g].AtGuard? ==> (Enabled(s, Enter(g)) <==> !s.isScheduling) && (Enabled(s, Bounce(g)) <==> s.isScheduling)
    ensures s.ticks[g].AtCheck? ==> Enabled(s, Leave(g)) && (Enabled(s, Check(g)) <==> !s.cancelled)
    ensures s.ticks[g].Dequeuing? ==> Enabled(s, DequeueNone(g)) && forall t :: Enabled(s, Dequeue(g, t))
    ensures s.ticks[g].Sending? ==> (Enabled(s, Send(g)) <==> |s.queue| < |s.workers|)
    ensures (forall l | OfTick(l, g) :: !Enabled(s, l)) <==> s.ticks[g].Sending? && |s.queue| == |s.workers|
  {
    match s.ticks[g] {
      case AtGuard => assert OfTick(Enter(g), g) && OfTick(Bounce(g), g);
      case AtCheck => assert OfTick(Leave(g), g);
      case Dequeuing => assert OfTick(DequeueNone(g), g);
      case Sending(_) =>
        assert OfTick(Send(g), g);
        NeverTooLate(s, g);
        assert Inside(s.ticks[g]) && !AllOver(s.ticks);
    }
  }

  /** So in every state of every run nobody waits but a sender for room and a worker for a task; and the
      ticker goes on until the scheduler is stopped, which main may do at any time. */
  lemma WhoWaits(n: int, states: seq<Inst>, labels: seq<Label>, i: nat, j: nat)
    requires Run(n, states, labels) && i < |states|
    ensures var s := states[i];
            && (j < |s.workers| && !s.workers[j].Gone? ==>
                  ((exists l :: OfWorker(l, j) && Enabled(s, l)) <==> s.workers[j].Busy? || s.queue != [] || s.closed))
            && (j < |s.ticks| && !s.ticks[j].Over? ==>
                  ((exists l :: OfTick(l, j) && Enabled(s, l)) <==> !s.ticks[j].Sending? || |s.queue| < |s.workers|))
            && (s.looping ==> Enabled(s, Tick) && (Enabled(s, LoopExit) <==> s.cancelled))
            && (s.main == Serving ==> s.looping && Enabled(s, StopScheduler))
  {
    InvRun(n, states, labels, i);
    var s := states[i];
    if j < |s.workers| && !s.workers[j].Gone? { WorkerWaits(s, j); }
    if j < |s.ticks| && !s.ticks[j].Over? { TickWaits(s, j); }
  }

  // ---------------------------------------------------------------- shutdown can be finished

  /** The steps ls lead from s to s'. */
  ghost predicate Path(s: Inst, ls: seq<Label>, s': Inst)
    decreases |ls|
  {
    if ls == [] then s == s' else Enabled(s, ls[0]) && Path(Apply(s, ls[0]), ls[1..], s')
  }

  lemma PathCons(s: Inst, l: Label, t: Inst, ls: seq<Label>, s': Inst)
    requires Steps(s, l, t) && Path(t, ls, s')
    ensures Path(s, [l] + ls, s')
  {
    assert ([l] + ls)[1..] == ls;
  }

  lemma ShutdownStep(s: Inst) returns (l: Label, s': Inst)
    requires Inv(s) && |s.workers| >= 1 && s.cancelled && s.main != Stopped
    ensures Steps(s, l, s') && Inv(s') && |s'.workers| >= 1 && s'.cancelled && Remaining(s') < Remaining(s)
  {
    l := ShutdownCanMove(s);
    s' := Apply(s, l);
    ShutdownDescends(s, l);
    InvStep(s, l);
    SameCrew(s, l);
  }

  /** Whenever main has begun to stop, the instance can be down within a computable number of
      steps. */
  lemma {:induction false} ShutdownCompletes(s: Inst) returns (ls: seq<Label>, s': Inst)
    requires Inv(s) && |s.workers| >= 1 && s.cancelled
    ensures Path(s, ls, s') && s'.main == Stopped && |ls| <= Remaining(s)
    decreases Remaining(s)
  {
    if s.main == Stopped {
      ls, s' := [], s;
    } else {
      var l, t := ShutdownStep(s);
      ls, s' := ShutdownCompletes(t);
      PathCons(s, l, t, ls, s');
      ls := [l] + ls;
    }
  }

  function TicksIn(labels: seq<Label>): nat {
    if labels == [] then 0 else TicksIn(labels[..|labels| - 1]) + (if labels[|labels| - 1].Tick? then 1 else 0)
  }

  lemma OneMoreLabel(labels: seq<Label>, i: nat, j: nat)
    requires i < j <= |labels|
    ensures TicksIn(labels[i..j]) == TicksIn(labels[i..j - 1]) + (if labels[j - 1].Tick? then 1 else 0)
  {
    assert labels[i..j][..j - 1 - i] == labels[i..j - 1];
  }

  lemma DescentOf(n: int, states: seq<Inst>, labels: seq<Label>, j: nat)
    requires Run(n, states, labels) && 0 < j < |states| && states[j - 1].cancelled
    ensures states[j].cancelled && Remaining(states[j]) <= Remaining(states[j - 1]) + (if labels[j - 1].Tick? then 2 else -1)
  {
    InvRun(n, states, labels, j - 1);
    RunStep(n, states, labels, j);
    ShutdownDescends(states[j - 1], labels[j - 1]);
  }

  /** Whatever is scheduled when, only late ticks can put it off: a shutdown in which no more
      than m ticks fire takes no more than Remaining + 3 * m steps. */
  lemma {:induction false} ShutdownIsBounded(n: int, states: seq<Inst>, labels: seq<Label>, i: nat, j: nat)
    requires Run(n, states, labels) && i <= j < |states| && states[i].cancelled
    ensures states[j].cancelled
    ensures j - i + Remaining(states[j]) <= Remaining(states[i]) + 3 * TicksIn(labels[i..j])
    decreases j
  {
    if i < j {
      ShutdownIsBounded(n, states, labels, i, j - 1);
      DescentOf(n, states, labels, j);
      OneMoreLabel(labels, i, j);
    }
  }
}
