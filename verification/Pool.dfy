/** The worker pool's own work: the states it shows of its workers, what one run of a task does to
    the tables and to the dashboards, and the drain of a closed queue. */
module Pools {
  import opened Tasks
  import opened TaskServices
  import opened Hubs

  datatype WorkerState = Idle | Busy(taskId: nat, kind: string, client: string, since: int)

  datatype WorkerStatus = WorkerStatus(id: nat, busy: bool, taskId: nat, kind: string, client: string, busyMs: int)

  /** What the dashboard is shown of a worker. */
  function StatusOf(st: WorkerState, id: nat, now: int): WorkerStatus {
    match st
    case Busy(taskId, kind, client, since) => WorkerStatus(id, true, taskId, kind, client, now - since)
    case Idle => WorkerStatus(id, false, 0, "", "", 0)
  }

  /** How a handler comes back. */
  datatype Handled = Succeeded | Erred(err: string) | Panicked(value: string)

  /** What one run of a task meets: when it begins and ends, how its handler comes back, and
      whether the database takes its two writes. */
  datatype Execution = Execution(begin: int, end: int, marked: bool, handled: Handled, recorded: bool)

  /** runHandler: a panic becomes an ordinary error. */
  function Outcome(h: Handled): Option<string> {
    match h
    case Succeeded => None
    case Erred(err) => Some(err)
    case Panicked(value) => Some("handler panicked: " + value)
  }

  function MarkedDb(db: Db, t: Task, x: Execution): Db {
    if x.marked && t.id in db.tasks then db.(tasks := db.tasks[t.id := StartedRow(db.tasks[t.id], x.begin)]) else db
  }

  function RecordedDb(db: Db, t: Task, x: Execution): Db {
    if !x.recorded then db
    else match Outcome(x.handled)
         case Some(err) => db.(tasks := FailedTasks(db.tasks, t, err, x.end), dead := FailedLetters(db.dead, t, err, x.end))
         case None => if t.id in db.tasks then db.(tasks := db.tasks[t.id := CompletedRow(db.tasks[t.id], x.end)]) else db
  }

  function ProcessedDb(db: Db, t: Task, x: Execution): Db {
    RecordedDb(MarkedDb(db, t, x), t, x)
  }

  /** The events a run announces. A failure is announced as one even if the task is to be retried. */
  function Events(t: Task, x: Execution): seq<Event> {
    [Beginning(t, x)] + Ending(t, x)
  }

  function Beginning(t: Task, x: Execution): Event {
    Event("task.started", t.id, t.client, "running", x.begin)
  }

  function Ending(t: Task, x: Execution): seq<Event> {
    if !x.recorded then []
    else if Outcome(x.handled).Some? then [Event("task.failed", t.id, t.client, "failed", x.end)]
    else [Event("task.completed", t.id, t.client, "completed", x.end)]
  }

  /** What is in a subscriber's buffer after these events of one client, if nobody reads. */
  function Heard(buffer: seq<Event>, mine: bool, es: seq<Event>): seq<Event> {
    if !mine || |buffer| >= 16 then buffer
    else if |buffer| + |es| <= 16 then buffer + es
    else buffer + es[..16 - |buffer|]
  }

  /** The events that runs of these tasks, one after the other, announce to one client. */
  function EventsFor(client: string, queue: seq<Task>, runs: Task -> Execution): seq<Event> {
    if queue == [] then []
    else (if queue[0].client == client then Events(queue[0], runs(queue[0])) else []) + EventsFor(client, queue[1..], runs)
  }

  /** A buffer keeps what comes first. */
  lemma HeardMore(buffer: seq<Event>, mine: bool, es: seq<Event>, fs: seq<Event>)
    ensures Heard(Heard(buffer, mine, es), true, fs) == Heard(buffer, true, (if mine then es else []) + fs)
  {
    var all := (if mine then es else []) + fs;
    if mine && |buffer| < 16 {
      assert buffer + all == buffer + es + fs;
      if |buffer| + |es| >= 16 {
        assert all[..16 - |buffer|] == es[..16 - |buffer|];
      } else if |buffer| + |all| > 16 {
        assert all[..16 - |buffer|] == es + fs[..16 - |buffer| - |es|];
        assert buffer + all[..16 - |buffer|] == buffer + es + fs[..16 - |buffer| - |es|];
      }
    } else {
      assert !mine ==> all == fs;
    }
  }

  lemma HeardTwice(buffer: seq<Event>, mine: bool, t: Task, x: Execution)
    ensures var first := if mine && |buffer| < 16 then buffer + [Beginning(t, x)] else buffer;
            Heard(first, mine, Ending(t, x)) == Heard(buffer, mine, Events(t, x))
  {
  }

  /** What is heard of all of them is heard of the first and then of the others. */
  ghost predicate HearsOn(buffer: seq<Event>, client: string, queue: seq<Task>, runs: Task -> Execution)
    requires queue != []
  {
    Heard(Heard(buffer, client == queue[0].client, Events(queue[0], runs(queue[0]))), true, EventsFor(client, queue[1..], runs)) ==
      Heard(buffer, true, EventsFor(client, queue, runs))
  }

  lemma HeardOn(buffer: seq<Event>, client: string, queue: seq<Task>, runs: Task -> Execution)
    requires queue != []
    ensures HearsOn(buffer, client, queue, runs)
  {
    HeardMore(buffer, client == queue[0].client, Events(queue[0], runs(queue[0])), EventsFor(client, queue[1..], runs));
  }

  /** The same in the words of the dashboard. */
  ghost predicate Spelt(before: seq<Event>, after: seq<Event>, t: Task, x: Execution) {
    var begun := before + [Event("task.started", t.id, t.client, "running", x.begin)];
    after == if !x.recorded || |before| == 15 then begun
             else if x.handled == Succeeded then begun + [Event("task.completed", t.id, t.client, "completed", x.end)]
             else begun + [Event("task.failed", t.id, t.client, "failed", x.end)]
  }

  lemma HeardSpelt(before: seq<Event>, t: Task, x: Execution)
    requires |before| <= 15
    ensures Spelt(before, Heard(before, true, Events(t, x)), t, x)
  {
    var es := Events(t, x);
    if |before| == 15 {
      assert es[..1] == [es[0]];
    } else if |es| == 2 {
      assert before + es == before + [es[0]] + [es[1]];
    }
  }

  class Pool {
    const service: TaskService
    const hub: Hub?   // nobody may be listening
    const numWorkers: nat
    var states: seq<WorkerState>
    var queue: seq<Task>
    var closed: bool
    var released: bool   // the context is done

    ghost function Audience(): set<Subscriber>
      reads hub
    {
      if hub == null then {} else hub.subs
    }

    ghost predicate HubValid()
      reads hub, Audience()
    {
      hub != null ==> hub.Valid()
    }

    ghost predicate Valid()
      reads this, service, hub, Audience()
    {
      service.Valid() && HubValid() && numWorkers >= 1 && |states| == numWorkers && |queue| <= numWorkers
    }

    constructor (service: TaskService, hub: Hub?, numWorkers: int)
      requires service.Valid() && (hub != null ==> hub.Valid())
      ensures Valid() && this.service == service && this.hub == hub
      ensures this.numWorkers == (if numWorkers < 1 then 1 else numWorkers)
      ensures queue == [] && !closed && !released && forall i | 0 <= i < |states| :: states[i] == Idle
    {
      this.service := service;
      this.hub := hub;
      this.numWorkers := if numWorkers < 1 then 1 else numWorkers;
      states := seq(if numWorkers < 1 then 1 else numWorkers, _ => Idle);
      queue, closed, released := [], false, false;
    }

    /** One status per worker, numbered from 1; an idle worker shows nothing else. */
    method WorkerStates(now: int) returns (out: seq<WorkerStatus>)
      ensures |out| == |states|
      ensures forall i | 0 <= i < |out| ::
                && out[i] == StatusOf(states[i], i + 1, now)
                && out[i].id == i + 1
                && (out[i].busy <==> states[i].Busy?)
                && match states[i]
                   case Busy(taskId, kind, client, since) =>
                     out[i].taskId == taskId && out[i].kind == kind && out[i].client == client && out[i].busyMs == now - since
                   case Idle => out[i] == WorkerStatus(i + 1, false, 0, "", "", 0)
    {
      out := [];
      for i := 0 to |states|
        invariant |out| == i
        invariant forall j | 0 <= j < i :: out[j] == StatusOf(states[j], j + 1, now)
      {
        var st := states[i];
        var ws := WorkerStatus(i + 1, false, 0, "", "", 0);
        if st.Busy? {
          ws := WorkerStatus(i + 1, true, st.taskId, st.kind, st.client, now - st.since);
        }
        out := out + [ws];
      }
    }

    /** From now on this worker is shown with this task, and every other as before. */
    method SetBusy(workerID: nat, task: Task, now: int)
      requires 1 <= workerID <= |states|
      modifies this`states
      ensures states == old(states)[workerID - 1 := Busy(task.id, task.kind, task.client, now)]
      ensures var st := states[workerID - 1]; forall t :: StatusOf(st, workerID, t) == WorkerStatus(workerID, true, task.id, task.kind, task.client, t - now)
      ensures |states| == |old(states)| && forall i | 0 <= i < |states| && i != workerID - 1 :: states[i] == old(states)[i]
    {
      states := states[workerID - 1 := Busy(task.id, task.kind, task.client, now)];
    }

    /** From now on this worker is shown idle, and every other as before. */
    method SetIdle(workerID: nat)
      requires 1 <= workerID <= |states|
      modifies this`states
      ensures states == old(states)[workerID - 1 := Idle]
      ensures var st := states[workerID - 1]; forall t :: StatusOf(st, workerID, t) == WorkerStatus(workerID, false, 0, "", "", 0)
      ensures |states| == |old(states)| && forall i | 0 <= i < |states| && i != workerID - 1 :: states[i] == old(states)[i]
    {
      states := states[workerID - 1 := Idle];
    }

    /** Runs one task end to end. Whatever goes wrong, the worker is idle again afterwards; a failed
        MarkStarted is passed over; a failed recording leaves the row as it is and announces
        nothing. */
    method Process(workerID: nat, task: Task, x: Execution)
      requires Valid() && 1 <= workerID <= numWorkers
      modifies this`states, service, set s | s in Audience() :: s`buffer
      ensures Valid() && Audience() == old(Audience())
      ensures states == old(states)[workerID - 1 := Idle]
      ensures service.Tables() == ProcessedDb(old(service.Tables()), task, x)
      ensures forall s | s in Audience() && (s.client != task.client || |old(s.buffer)| >= 16) :: s.buffer == old(s.buffer)
      ensures forall s | s in Audience() && s.client == task.client && |old(s.buffer)| <= 14 ::
                s.buffer == old(s.buffer) + [Event("task.started", task.id, task.client, "running", x.begin)] +
                            (if !x.recorded then []
                             else if x.handled == Succeeded then [Event("task.completed", task.id, task.client, "completed", x.end)]
                             else [Event("task.failed", task.id, task.client, "failed", x.end)])
      ensures forall s | s in Audience() && s.client == task.client && |old(s.buffer)| == 15 ::
                s.buffer == old(s.buffer) + [Event("task.started", task.id, task.client, "running", x.begin)]
      ensures forall s | s in Audience() :: s.buffer == Heard(old(s.buffer), s.client == task.client, Events(task, x))
    {
      SetBusy(workerID, task, x.begin);
      Mark(task, x);
      Publish("task.started", task, "running", x.begin);
      Record(task, x);
      Announce(task, x);
      forall s | s in Audience() ensures s.buffer == Heard(old(s.buffer), s.client == task.client, Events(task, x)) {
        HeardTwice(old(s.buffer), s.client == task.client, task, x);
      }
      forall s | s in Audience() && s.client == task.client && |old(s.buffer)| <= 15 ensures Spelt(old(s.buffer), s.buffer, task, x) {
        HeardSpelt(old(s.buffer), task, x);
      }
      SetIdle(workerID);
    }

    /** Tells the hub, if there is one. */
    method Publish(kind: string, task: Task, status: string, now: int)
      requires HubValid()
      modifies set s | s in Audience() :: s`buffer
      ensures HubValid() && Audience() == old(Audience())
      ensures forall s | s in Audience() ::
                s.buffer == if s.client == task.client && |old(s.buffer)| < 16
                            then old(s.buffer) + [Event(kind, task.id, task.client, status, now)] else old(s.buffer)
    {
      if hub != null {
        hub.PublishTaskEvent(kind, task.id, task.client, status, now);
      }
    }

    method Mark(task: Task, x: Execution)
      requires service.Valid()
      modifies service
      ensures service.Valid() && service.Tables() == MarkedDb(old(service.Tables()), task, x)
    {
      if x.marked {
        service.MarkStarted(task.id, x.begin);
      }
    }

    method Record(task: Task, x: Execution)
      requires service.Valid()
      modifies service
      ensures service.Valid() && service.Tables() == RecordedDb(old(service.Tables()), task, x)
    {
      if !x.recorded {
        return;
      }
      var err := Outcome(x.handled);
      if err.Some? {
        service.FailTask(task, err.value, x.end);
      } else {
        service.CompleteTask(task.id, x.end);
      }
    }

    /** The event that follows the recording, if it succeeded. */
    method Announce(task: Task, x: Execution)
      requires HubValid()
      modifies set s | s in Audience() :: s`buffer
      ensures HubValid() && Audience() == old(Audience())
      ensures forall s | s in Audience() :: s.buffer == Heard(old(s.buffer), s.client == task.client, Ending(task, x))
    {
      if !x.recorded {
        return;
      }
      if Outcome(x.handled).Some? {
        Publish("task.failed", task, "failed", x.end);
      } else {
        Publish("task.completed", task, "completed", x.end);
      }
    }

    /** Returns once there is room or the pool is shutting down; when both hold, either may win. A
        send on the closed channel would panic. */
    method Submit(task: Task, roomWins: bool) returns (sent: bool)
      requires Valid() && !closed && (|queue| < numWorkers || released)
      modifies this`queue
      ensures Valid() && (sent || released)
      ensures queue == if sent then old(queue) + [task] else old(queue)
      ensures !released ==> sent
    {
      sent := |queue| < numWorkers && (roomWins || !released);
      if sent {
        queue := queue + [task];
      }
    }

    /** Closes the queue, waits until all that was buffered has been run, and only then cancels the
        context. */
    method Stop(runs: Task -> Execution)
      requires Valid() && !closed
      modifies this`states, this`queue, this`closed, this`released, service, set s | s in Audience() :: s`buffer
      ensures Valid() && closed && released && queue == [] && Audience() == old(Audience())
      ensures service.Tables() == DrainedDb(old(service.Tables()), old(queue), runs)
      ensures forall s | s in Audience() :: s.buffer == Heard(old(s.buffer), true, EventsFor(s.client, old(queue), runs))
    {
      closed := true;
      Drain(1, runs);
      released := true;
    }

    /** A worker's loop over a closed queue: it runs everything that is left, first in, first out. */
    method Drain(workerID: nat, runs: Task -> Execution)
      requires Valid() && closed && 1 <= workerID <= numWorkers
      modifies this`states, this`queue, service, set s | s in Audience() :: s`buffer
      ensures Valid() && queue == [] && Audience() == old(Audience())
      ensures service.Tables() == DrainedDb(old(service.Tables()), old(queue), runs)
      ensures states == if old(queue) == [] then old(states) else old(states)[workerID - 1 := Idle]
      ensures forall s | s in Audience() :: s.buffer == Heard(old(s.buffer), true, EventsFor(s.client, old(queue), runs))
    {
      while queue != []
        invariant Valid() && Audience() == old(Audience()) && |queue| <= |old(queue)|
        invariant DrainedDb(service.Tables(), queue, runs) == DrainedDb(old(service.Tables()), old(queue), runs)
        invariant states == if |queue| == |old(queue)| then old(states) else old(states)[workerID - 1 := Idle]
        invariant forall s | s in Audience() ::
                    Heard(s.buffer, true, EventsFor(s.client, queue, runs)) == Heard(old(s.buffer), true, EventsFor(s.client, old(queue), runs))
        decreases |queue|
      {
        var task := queue[0];
        forall s | s in Audience() ensures HearsOn(s.buffer, s.client, queue, runs) {
          HeardOn(s.buffer, s.client, queue, runs);
        }
        queue := queue[1..];
        Process(workerID, task, runs(task));
      }
    }
  }

  function DrainedDb(db: Db, queue: seq<Task>, runs: Task -> Execution): Db
    decreases |queue|
  {
    if queue == [] then db else DrainedDb(ProcessedDb(db, queue[0], runs(queue[0])), queue[1..], runs)
  }

  // ---------------------------------------------------------------- what a run of a task comes to

  /** A run touches its own row and no other, and files at most one dead letter. */
  lemma ProcessedElsewhere(db: Db, t: Task, x: Execution, id: nat)
    requires id in db.tasks && id != t.id
    ensures id in ProcessedDb(db, t, x).tasks && ProcessedDb(db, t, x).tasks[id] == db.tasks[id]
    ensures DeadCount(ProcessedDb(db, t, x).dead, id) == DeadCount(db.dead, id)
  {
    DeadCountPush(db.dead, Letter(t, if Outcome(x.handled).Some? then Outcome(x.handled).value else "", x.end), id);
  }

  /** The row of a task that is run, unless its recording fails. */
  function EndedRow(r: Task, t: Task, x: Execution): Task {
    var started := if x.marked then StartedRow(r, x.begin) else r;
    match Outcome(x.handled)
    case Some(err) => FailTask(started, t, err, x.end)
    case None => CompletedRow(started, x.end)
  }

  predicate DistinctIds(queue: seq<Task>) {
    forall i, j | 0 <= i < j < |queue| :: queue[i].id != queue[j].id
  }

  lemma {:induction false} DrainElsewhere(db: Db, queue: seq<Task>, runs: Task -> Execution, id: nat)
    requires id in db.tasks && forall i | 0 <= i < |queue| :: queue[i].id != id
    ensures id in DrainedDb(db, queue, runs).tasks && DrainedDb(db, queue, runs).tasks[id] == db.tasks[id]
    decreases |queue|
  {
    if queue != [] {
      ProcessedElsewhere(db, queue[0], runs(queue[0]), id);
      DrainElsewhere(ProcessedDb(db, queue[0], runs(queue[0])), queue[1..], runs, id);
    }
  }

  /** Draining a queue of different tasks leaves each of them with the outcome of its own run: none
      is skipped, none is run twice, and none disturbs another. */
  lemma {:induction false} DrainSettlesEach(db: Db, queue: seq<Task>, runs: Task -> Execution, i: nat)
    requires DistinctIds(queue) && i < |queue| && queue[i].id in db.tasks && runs(queue[i]).recorded
    ensures queue[i].id in DrainedDb(db, queue, runs).tasks
    ensures DrainedDb(db, queue, runs).tasks[queue[i].id] == EndedRow(db.tasks[queue[i].id], queue[i], runs(queue[i]))
    decreases |queue|
  {
    var t := queue[0];
    var db' := ProcessedDb(db, t, runs(t));
    if i == 0 {
      DrainElsewhere(db', queue[1..], runs, t.id);
    } else {
      ProcessedElsewhere(db, t, runs(t), queue[i].id);
      DrainSettlesEach(db', queue[1..], runs, i - 1);
    }
  }

  /** What is recorded of a failed run: the handler's own error, or the panic. */
  function ErrorText(h: Handled): string
    requires h != Succeeded
  {
    match h
    case Erred(err) => err
    case Panicked(value) => "handler panicked: " + value
  }

  /** After a recorded run its row has ended, and no other row has changed. Which of the three ends it
      came to is decided by the handler and the snapshot's retries left; these are all its columns. */
  lemma RunEnds(db: Db, t: Task, x: Execution)
    requires t.id in db.tasks && x.recorded
    ensures t.id in ProcessedDb(db, t, x).tasks
    ensures var r, r' := db.tasks[t.id], ProcessedDb(db, t, x).tasks[t.id];
            var started := if x.marked then Some(x.begin) else r.startedAt;
            && ProcessedDb(db, t, x).tasks == db.tasks[t.id := r'] && r' == EndedRow(r, t, x)
            && (x.handled == Succeeded ==>
                  r' == r.(status := Completed, startedAt := started, completedAt := Some(x.end)))
            && (x.handled != Succeeded && t.retryCount < t.maxRetries ==>
                  r' == r.(status := Pending, retryCount := t.retryCount + 1, errorMessage := Some(ErrorText(x.handled)),
                           startedAt := None, completedAt := None))
            && (x.handled != Succeeded && t.retryCount >= t.maxRetries ==>
                  r' == r.(status := Failed, errorMessage := Some(ErrorText(x.handled)), startedAt := started, completedAt := Some(x.end)))
  {
  }

  /** A run files a dead letter exactly when its failure is recorded and was the last one allowed. The
      letter is the snapshot, with the error that the row has got too. */
  lemma RunFiles(db: Db, t: Task, x: Execution)
    ensures ProcessedDb(db, t, x).dead ==
              if x.recorded && x.handled != Succeeded && t.retryCount >= t.maxRetries
              then db.dead + [DeadLetter(t.id, t.client, t.kind, t.priority, t.payload, t.retryCount, t.maxRetries,
                                         ErrorText(x.handled), t.processedBy, t.createdAt, x.end)]
              else db.dead
  {
  }

  /** A run whose end the database did not take, or whose task is unknown, has at most marked the start. */
  lemma RunUnrecorded(db: Db, t: Task, x: Execution)
    requires !x.recorded || t.id !in db.tasks
    ensures ProcessedDb(db, t, x).tasks ==
              if t.id in db.tasks && x.marked then db.tasks[t.id := db.tasks[t.id].(startedAt := Some(x.begin))] else db.tasks
  {
  }
}
