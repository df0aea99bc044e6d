/** The task service: the operations of the queue, each changing the tables in place.
    Every operation is specified by the rows it writes and by the rows it leaves alone. */
module TaskServices {
  import opened Tasks

  datatype Error = ErrNoTask | ErrRecordNotFound | ErrTaskNotCancellable | ErrEmptySlice
  datatype Result<+T> = Ok(value: T) | Err(error: Error)

  class TaskService {
    var tasks: map<nat, Task>
    var dead: seq<DeadLetter>
    var nextId: nat

    /** Every row sits under its own id, and ids not yet handed out are unused. */
    ghost predicate Valid()
      reads this
    {
      forall id | id in tasks :: tasks[id].id == id && id < nextId
    }

    ghost function Tables(): Db
      reads this
    {
      Db(tasks, dead, nextId)
    }

    constructor ()
      ensures Valid() && Tables() == Db(map[], [], 0)
    {
      tasks, dead, nextId := map[], [], 0;
    }

    method CreateTask(client: string, input: TaskInput, now: int) returns (task: Task)
      requires Valid()
      modifies this
      ensures Valid() && dead == old(dead)
      ensures task.id !in old(tasks) && tasks == old(tasks)[task.id := task]
      ensures task.client == client && task.kind == input.kind && task.priority == input.priority && task.payload == input.payload
      ensures task.status == Pending && task.retryCount == 0 && task.createdAt == now
      ensures task.startedAt == None && task.completedAt == None && task.processedBy == None && task.errorMessage == None
      ensures task.maxRetries == match input.maxRetries { case Some(m) => m case None => 3 }
      ensures task == NewRow(old(nextId), client, input, now) && nextId == old(nextId) + 1
    {
      task := NewRow(nextId, client, input, now);
      tasks := tasks[nextId := task];
      nextId := nextId + 1;
    }

    /** Fills a slice of rows in a loop, then inserts them all in one statement. */
    method BatchCreateTasks(client: string, inputs: seq<TaskInput>, now: int) returns (r: Result<nat>)
      requires Valid()
      modifies this
      ensures Valid() && dead == old(dead)
      ensures inputs == [] ==> r == Err(ErrEmptySlice) && tasks == old(tasks) && nextId == old(nextId)
      ensures inputs != [] ==> r == Ok(|inputs|) && nextId == old(nextId) + |inputs|
      ensures forall id :: id in tasks <==> id in old(tasks) || old(nextId) <= id < nextId
      ensures forall id | id in old(tasks) :: tasks[id] == old(tasks)[id]
      ensures forall k | 0 <= k < |inputs| :: tasks[old(nextId) + k] == NewRow(old(nextId) + k, client, inputs[k], now)
    {
      var rows: map<nat, Task> := map[];
      for i := 0 to |inputs|
        invariant forall id :: id in rows <==> nextId <= id < nextId + i
        invariant forall k | 0 <= k < i :: rows[nextId + k] == NewRow(nextId + k, client, inputs[k], now)
        invariant forall id | id in rows :: rows[id].id == id
      {
        rows := rows[nextId + i := NewRow(nextId + i, client, inputs[i], now)];
      }
      if inputs == [] {
        return Err(ErrEmptySlice);
      }
      tasks := tasks + rows;
      nextId := nextId + |inputs|;
      return Ok(|inputs|);
    }

    /** The claim transaction, run while the rows in `locked` are held by other open
        transactions. Either no row of this client can be claimed, and nothing happens; or a
        best one is marked running for `instance`, and the caller gets its counters. */
    method DequeueTaskForClient(client: string, instance: string, locked: set<nat>) returns (r: Result<Task>)
      requires Valid()
      modifies this
      ensures Valid() && dead == old(dead) && nextId == old(nextId)
      ensures r == Err(ErrNoTask) <==>
                forall o | o in old(tasks) && o !in locked :: old(tasks)[o].status != Pending || old(tasks)[o].client != client
      ensures r.Err? ==> r.error == ErrNoTask && tasks == old(tasks)
      ensures r.Ok? ==>
                var id := r.value.id;
                && id in old(tasks) && id !in locked
                && var row := old(tasks)[id];
                && row.status == Pending && row.client == client
                && (forall o | o in old(tasks) && o !in locked && old(tasks)[o].status == Pending && old(tasks)[o].client == client ::
                      || old(tasks)[o].priority < row.priority
                      || (old(tasks)[o].priority == row.priority && old(tasks)[o].createdAt >= row.createdAt))
                && tasks == old(tasks)[id := row.(status := Running, processedBy := Some(instance))]
      ensures r.Ok? ==>
                var t, row := r.value, old(tasks)[r.value.id];
                && t.status == Running && t.processedBy == Some(instance)
                && t.client == row.client && t.kind == row.kind && t.priority == row.priority && t.payload == row.payload
                && t.retryCount == row.retryCount && t.maxRetries == row.maxRetries && t.createdAt == row.createdAt
                && t.errorMessage == None && t.startedAt == None && t.completedAt == None
      ensures r.Ok? ==> Best(old(tasks), locked, client, r.value.id) && r.value == Snapshot(old(tasks)[r.value.id], instance)
    {
      var candidates := set id | id in tasks && Claimable(tasks, locked, client, id);
      if candidates == {} {
        assert forall id | id in tasks && id !in locked && tasks[id].status == Pending && tasks[id].client == client :: id in candidates;
        return Err(ErrNoTask);
      }
      BestExists(tasks, locked, client);
      assert exists id :: id in tasks && Best(tasks, locked, client, id) by {
        var c :| c in candidates;
        assert Claimable(tasks, locked, client, c);
      }
      var id :| id in tasks && Best(tasks, locked, client, id);
      var row := tasks[id];
      assert Claimable(tasks, locked, client, id);
      BestIs(tasks, locked, client, id);
      tasks := tasks[id := ClaimedRow(row, instance)];
      return Ok(Snapshot(row, instance));
    }

    method ClientsWithPendingTasks() returns (clients: set<string>)
      ensures forall c :: c in clients <==> exists id :: Claimable(tasks, {}, c, id)
      ensures clients == PendingClients(tasks)
    {
      clients := set id | id in tasks && tasks[id].status == Pending :: tasks[id].client;
      forall c
        ensures c in clients <==> exists id :: Claimable(tasks, {}, c, id)
      {
        if c in clients {
          var id :| id in tasks && tasks[id].status == Pending && tasks[id].client == c;
          assert Claimable(tasks, {}, c, id);
        }
        if id :| Claimable(tasks, {}, c, id) {
          assert tasks[id].client in clients;
        }
      }
    }

    /** Startup recovery. The retry counter of an orphan is left alone. */
    method RequeueOrphanedTasks(instance: string) returns (affected: nat)
      requires Valid()
      modifies this
      ensures Valid() && dead == old(dead) && nextId == old(nextId)
      ensures tasks.Keys == old(tasks).Keys
      ensures forall id | id in tasks ::
                tasks[id] == if old(tasks)[id].status == Running && old(tasks)[id].processedBy == Some(instance)
                             then old(tasks)[id].(status := Pending, startedAt := None, processedBy := None)
                             else old(tasks)[id]
      ensures affected == |set id | id in old(tasks) && IsOrphanOf(old(tasks)[id], instance)|
      ensures tasks == RequeuedTasks(old(tasks), instance)
      ensures forall id | id in tasks :: !IsOrphanOf(tasks[id], instance)
    {
      var orphans := set id | id in tasks && IsOrphanOf(tasks[id], instance);
      affected := |orphans|;
      tasks := map id | id in tasks :: if id in orphans then RequeuedRow(tasks[id]) else tasks[id];
    }

    method FindStaleRunningTasks(timeout: int, now: int) returns (stale: set<Task>)
      requires Valid()
      ensures forall t :: t in stale <==>
                t.id in tasks && tasks[t.id] == t && t.status == Running && t.startedAt.Some? && t.startedAt.value < now - timeout
      ensures stale == StaleTasks(tasks, now - timeout)
    {
      stale := set id | id in tasks && IsStale(tasks[id], now - timeout) :: tasks[id];
    }

    method MarkStarted(id: nat, now: int)
      requires Valid()
      modifies this
      ensures Valid() && dead == old(dead) && nextId == old(nextId)
      ensures tasks == if id in old(tasks) then old(tasks)[id := old(tasks)[id].(startedAt := Some(now))] else old(tasks)
    {
      if id in tasks {
        tasks := tasks[id := StartedRow(tasks[id], now)];
      }
    }

    method CompleteTask(id: nat, now: int)
      requires Valid()
      modifies this
      ensures Valid() && dead == old(dead) && nextId == old(nextId)
      ensures tasks == if id in old(tasks) then old(tasks)[id := old(tasks)[id].(status := Completed, completedAt := Some(now))]
                       else old(tasks)
    {
      if id in tasks {
        tasks := tasks[id := CompletedRow(tasks[id], now)];
      }
    }

    /** Retries left: back to pending with the timing cleared. Retries used up: dead letter. */
    method FailTask(task: Task, err: string, now: int)
      requires Valid()
      modifies this
      ensures Valid() && nextId == old(nextId)
      ensures task.retryCount < task.maxRetries ==>
                && dead == old(dead)
                && tasks == if task.id !in old(tasks) then old(tasks) else
                     old(tasks)[task.id := old(tasks)[task.id].(
                       status := Pending, retryCount := task.retryCount + 1, errorMessage := Some(err),
                       startedAt := None, completedAt := None)]
      ensures task.retryCount >= task.maxRetries ==>
                && dead == old(dead) + [Letter(task, err, now)]
                && tasks == if task.id !in old(tasks) then old(tasks) else
                     old(tasks)[task.id := old(tasks)[task.id].(
                       status := Failed, errorMessage := Some(err), completedAt := Some(now))]
      ensures tasks == FailedTasks(old(tasks), task, err, now) && dead == FailedLetters(old(dead), task, err, now)
    {
      if task.retryCount < task.maxRetries {
        if task.id in tasks {
          tasks := tasks[task.id := RetriedRow(tasks[task.id], task, err)];
        }
        return;
      }
      DeadLetterTask(task, err, now);
    }

    /** One transaction: the row becomes failed and its copy goes to the dead letters. */
    method DeadLetterTask(task: Task, err: string, now: int)
      requires Valid()
      modifies this
      ensures Valid() && nextId == old(nextId)
      ensures |dead| == |old(dead)| + 1 && dead[..|old(dead)|] == old(dead)
      ensures var e := dead[|old(dead)|];
              && e.taskId == task.id && e.client == task.client && e.kind == task.kind && e.priority == task.priority
              && e.payload == task.payload && e.retryCount == task.retryCount && e.maxRetries == task.maxRetries
              && e.finalError == err && e.processedBy == task.processedBy && e.createdAt == task.createdAt && e.failedAt == now
      ensures tasks == if task.id !in old(tasks) then old(tasks) else
                old(tasks)[task.id := old(tasks)[task.id].(status := Failed, errorMessage := Some(err), completedAt := Some(now))]
    {
      if task.id in tasks {
        tasks := tasks[task.id := FailedRow(tasks[task.id], err, now)];
      }
      dead := dead + [Letter(task, err, now)];
    }

    method GetTask(client: string, id: nat) returns (r: Result<Task>)
      ensures r == if id in tasks && tasks[id].client == client then Ok(tasks[id]) else Err(ErrRecordNotFound)
    {
      if id in tasks && tasks[id].client == client {
        return Ok(tasks[id]);
      }
      return Err(ErrRecordNotFound);
    }

    /** The guarded update: it goes through exactly for the owner's pending or running task. */
    method CancelTask(client: string, id: nat, now: int) returns (r: Result<Task>)
      requires Valid()
      modifies this
      ensures Valid() && dead == old(dead) && nextId == old(nextId)
      ensures r.Ok? <==> id in old(tasks) && old(tasks)[id].client == client && old(tasks)[id].status in {Pending, Running}
      ensures r.Ok? ==>
                && tasks == old(tasks)[id := old(tasks)[id].(status := Cancelled, completedAt := Some(now))]
                && r.value == tasks[id]
      ensures r.Err? ==> tasks == old(tasks)
      ensures r == Err(ErrRecordNotFound) <==> id !in old(tasks) || old(tasks)[id].client != client
      ensures r == Err(ErrTaskNotCancellable) <==>
                id in old(tasks) && old(tasks)[id].client == client && old(tasks)[id].status in {Completed, Failed, Cancelled}
    {
      if id in tasks && tasks[id].client == client && tasks[id].status in {Pending, Running} {
        tasks := tasks[id := CancelledRow(tasks[id], now)];
        r := GetTask(client, id);
        return;
      }
      r := GetTask(client, id);
      if r.Ok? {
        var status := r.value.status;
        assert status.Completed? || status.Failed? || status.Cancelled?;
        return Err(ErrTaskNotCancellable);
      }
    }
  }
}
