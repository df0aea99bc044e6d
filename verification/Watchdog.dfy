/** The watchdog's sweep: read a list of stale tasks, then fail them one by one. */
module Watchdogs {
  import opened Tasks
  import opened TaskServices

  /** Sweeping over tasks that nobody else is touching. */
  class Watchdog {
    const service: TaskService
    const timeout: int

    constructor (service: TaskService, timeout: int)
      ensures this.service == service && this.timeout == timeout
    {
      this.service := service;
      this.timeout := timeout;
    }

    method Recover(t: Task, reason: string, now: int)
      requires service.Valid()
      modifies service
      ensures service.Valid()
      ensures service.tasks == FailedTasks(old(service.tasks), t, reason, now)
      ensures service.dead == FailedLetters(old(service.dead), t, reason, now)
    {
      service.FailTask(t, reason, now);
    }

    /** `patience` is how many tasks can be handled before a shutdown is noticed, if there is one;
        `refused` are the ids whose update the database fails. Every stale task that is handled goes
        through the failure path exactly once; nothing else changes. */
    method Sweep(now: int, reason: string, patience: Option<nat>, refused: set<nat>) returns (handled: set<Task>)
      requires service.Valid()
      modifies service
      ensures service.Valid()
      ensures handled <= StaleTasks(old(service.tasks), now - timeout)
      ensures forall t | t in handled :: t.id !in refused
      ensures patience == None ==>
                forall t | t in StaleTasks(old(service.tasks), now - timeout) && t.id !in refused :: t in handled
      ensures patience.Some? ==> |handled| <= patience.value
      ensures patience.Some? ==>
                var stale := StaleTasks(old(service.tasks), now - timeout);
                exists seen: set<Task> :: seen <= stale && |seen| == Min(patience.value, |stale|) && Handled(seen, refused, handled)
      ensures Swept(old(service.tasks), service.tasks, handled, reason, now)
      ensures Filed(old(service.tasks), old(service.dead), service.dead, handled)
      ensures |service.dead| >= |old(service.dead)| && service.dead[..|old(service.dead)|] == old(service.dead)
      ensures forall i | |old(service.dead)| <= i < |service.dead| ::
                var e := service.dead[i];
                && e.taskId in old(service.tasks)
                && var r := old(service.tasks)[e.taskId];
                && r in handled && r.retryCount >= r.maxRetries
                && e.client == r.client && e.kind == r.kind && e.priority == r.priority && e.payload == r.payload
                && e.retryCount == r.retryCount && e.maxRetries == r.maxRetries && e.processedBy == r.processedBy
                && e.createdAt == r.createdAt && e.finalError == reason && e.failedAt == now
      ensures patience == None && refused == {} ==> StaleTasks(service.tasks, now - timeout) == {}
    {
      var stale := service.FindStaleRunningTasks(timeout, now);
      handled := RecoverAll(stale, now, reason, patience, refused);
      if patience == None && refused == {} {
        NothingStale(old(service.tasks), service.tasks, handled, reason, now, now - timeout);
      }
    }

    /** The loop of the sweep. */
    method RecoverAll(stale: set<Task>, now: int, reason: string, patience: Option<nat>, refused: set<nat>) returns (handled: set<Task>)
      requires service.Valid() && forall t | t in stale :: t.id in service.tasks && service.tasks[t.id] == t
      modifies service
      ensures service.Valid()
      ensures handled <= stale && (patience == None ==> Handled(stale, refused, handled))
      ensures forall t | t in handled :: t.id !in refused
      ensures patience.Some? ==> |handled| <= patience.value
      ensures patience.Some? ==>
                exists seen: set<Task> :: seen <= stale && |seen| == Min(patience.value, |stale|) && Handled(seen, refused, handled)
      ensures Swept(old(service.tasks), service.tasks, handled, reason, now)
      ensures Filed(old(service.tasks), old(service.dead), service.dead, handled)
      ensures |service.dead| >= |old(service.dead)| && service.dead[..|old(service.dead)|] == old(service.dead)
      ensures forall i | |old(service.dead)| <= i < |service.dead| ::
                var e := service.dead[i];
                && e.taskId in old(service.tasks)
                && var r := old(service.tasks)[e.taskId];
                && r in handled && r.retryCount >= r.maxRetries
                && e.client == r.client && e.kind == r.kind && e.priority == r.priority && e.payload == r.payload
                && e.retryCount == r.retryCount && e.maxRetries == r.maxRetries && e.processedBy == r.processedBy
                && e.createdAt == r.createdAt && e.finalError == reason && e.failedAt == now
    {
      handled := {};
      ghost var tasks, dead := service.tasks, service.dead;
      assert Keyed(tasks);
      var rest, seen := stale, 0;
      while rest != {}
        invariant service.Valid() && rest <= stale && |handled| <= seen && (patience.Some? ==> seen <= patience.value)
        invariant Handled(stale - rest, refused, handled) && |stale - rest| == seen
        invariant Recovered(tasks, dead, service.tasks, service.dead, handled, reason, now)
        decreases rest
      {
        if patience.Some? && seen == patience.value {
          break;
        }
        var t :| t in rest;
        seen := seen + 1;
        HandledNext(stale, rest, refused, handled, t);
        rest := rest - {t};
        if t.id in refused {
          continue;
        }
        RecoveredOne(tasks, dead, service.tasks, service.dead, handled, t, reason, now);
        Recover(t, reason, now);
        handled := handled + {t};
      }
      SeenAll(stale, rest, patience, refused, handled);
      CopiedIs(tasks, dead, service.dead, handled, reason, now);
    }
  }

  /** The sweep so far: what has been handled is failed as it was read, the rest is as it was. */
  ghost predicate Swept(before: map<nat, Task>, after: map<nat, Task>, handled: set<Task>, reason: string, now: int) {
    && after.Keys == before.Keys
    && forall id | id in before :: after[id] == if before[id] in handled then FailTask(before[id], before[id], reason, now) else before[id]
  }

  /** One dead letter for a handled task without retries left. */
  function Retired(tasks: map<nat, Task>, handled: set<Task>, id: nat): nat {
    if id in tasks && tasks[id] in handled && !HasRetriesLeft(tasks[id]) then 1 else 0
  }

  /** The dead letters are those there were, and one for each task retired. */
  ghost predicate Filed(tasks: map<nat, Task>, before: seq<DeadLetter>, after: seq<DeadLetter>, handled: set<Task>) {
    forall id :: DeadCount(after, id) == DeadCount(before, id) + Retired(tasks, handled, id)
  }

  /** Every letter filed since is a copy of a handled row as it was read. */
  ghost predicate Copied(tasks: map<nat, Task>, before: seq<DeadLetter>, after: seq<DeadLetter>, handled: set<Task>, reason: string, now: int) {
    && |after| >= |before| && after[..|before|] == before
    && forall i | |before| <= i < |after| ::
         && after[i].taskId in tasks && tasks[after[i].taskId] in handled && !HasRetriesLeft(tasks[after[i].taskId])
         && tasks[after[i].taskId].id == after[i].taskId && after[i] == Letter(tasks[after[i].taskId], reason, now)
  }

  lemma CopiedOne(tasks: map<nat, Task>, before: seq<DeadLetter>, after: seq<DeadLetter>, handled: set<Task>, t: Task, reason: string, now: int)
    requires Copied(tasks, before, after, handled, reason, now) && t.id in tasks && tasks[t.id] == t
    ensures Copied(tasks, before, FailedLetters(after, t, reason, now), handled + {t}, reason, now)
  {
    var after' := FailedLetters(after, t, reason, now);
    assert after'[..|before|] == before;
  }

  function Min(a: nat, b: nat): nat {
    if a < b then a else b
  }

  /** Of those seen, all were handled whose update the database took. */
  ghost predicate Handled(seen: set<Task>, refused: set<nat>, handled: set<Task>) {
    handled <= seen && forall t | t in seen :: t in handled <==> t.id !in refused
  }

  lemma HandledNext(stale: set<Task>, rest: set<Task>, refused: set<nat>, handled: set<Task>, t: Task)
    requires t in rest && rest <= stale && Handled(stale - rest, refused, handled)
    ensures t !in handled && Handled(stale - (rest - {t}), refused, if t.id in refused then handled else handled + {t})
    ensures |stale - (rest - {t})| == |stale - rest| + 1
  {
    assert stale - (rest - {t}) == (stale - rest) + {t};
  }

  /** The loop ends when all have been seen, or as many as the patience allows. */
  lemma SeenAll(stale: set<Task>, rest: set<Task>, patience: Option<nat>, refused: set<nat>, handled: set<Task>)
    requires rest <= stale && Handled(stale - rest, refused, handled) && (patience.Some? ==> |stale - rest| <= patience.value)
    requires rest == {} || (patience.Some? && |stale - rest| == patience.value)
    ensures patience == None ==> Handled(stale, refused, handled)
    ensures patience.Some? ==>
              exists seen: set<Task> :: seen <= stale && |seen| == Min(patience.value, |stale|) && Handled(seen, refused, handled)
  {
    SubsetSize(stale - rest, stale);
    assert rest == {} ==> stale - rest == stale;
  }

  /** The tables after some of the tasks have been handled. */
  ghost predicate Recovered(tasks: map<nat, Task>, dead: seq<DeadLetter>, tasks': map<nat, Task>, dead': seq<DeadLetter>,
                            handled: set<Task>, reason: string, now: int) {
    Swept(tasks, tasks', handled, reason, now) && Filed(tasks, dead, dead', handled) && Copied(tasks, dead, dead', handled, reason, now)
  }

  lemma RecoveredOne(tasks: map<nat, Task>, dead: seq<DeadLetter>, tasks': map<nat, Task>, dead': seq<DeadLetter>,
                     handled: set<Task>, t: Task, reason: string, now: int)
    requires Keyed(tasks) && Recovered(tasks, dead, tasks', dead', handled, reason, now)
    requires t.id in tasks && tasks[t.id] == t && t !in handled
    ensures Recovered(tasks, dead, FailedTasks(tasks', t, reason, now), FailedLetters(dead', t, reason, now), handled + {t}, reason, now)
  {
    SweptOne(tasks, tasks', handled, t, reason, now);
    FiledOne(tasks, dead, dead', handled, t, reason, now);
    CopiedOne(tasks, dead, dead', handled, t, reason, now);
  }

  lemma CopiedIs(tasks: map<nat, Task>, before: seq<DeadLetter>, after: seq<DeadLetter>, handled: set<Task>, reason: string, now: int)
    requires Copied(tasks, before, after, handled, reason, now)
    ensures forall i | |before| <= i < |after| ::
              var e := after[i];
              && e.taskId in tasks
              && var r := tasks[e.taskId];
              && r in handled && r.retryCount >= r.maxRetries
              && e.client == r.client && e.kind == r.kind && e.priority == r.priority && e.payload == r.payload
              && e.retryCount == r.retryCount && e.maxRetries == r.maxRetries && e.processedBy == r.processedBy
              && e.createdAt == r.createdAt && e.finalError == reason && e.failedAt == now
  {
  }

  ghost predicate Keyed(tasks: map<nat, Task>) {
    forall id | id in tasks :: tasks[id].id == id
  }

  lemma SweptOne(before: map<nat, Task>, after: map<nat, Task>, handled: set<Task>, t: Task, reason: string, now: int)
    requires Keyed(before) && Swept(before, after, handled, reason, now)
    requires t.id in before && before[t.id] == t && t !in handled
    ensures Swept(before, FailedTasks(after, t, reason, now), handled + {t}, reason, now)
  {
    assert after[t.id] == t;
  }

  lemma FiledOne(tasks: map<nat, Task>, before: seq<DeadLetter>, after: seq<DeadLetter>, handled: set<Task>, t: Task, reason: string, now: int)
    requires Keyed(tasks) && Filed(tasks, before, after, handled)
    requires t.id in tasks && tasks[t.id] == t && t !in handled
    ensures Filed(tasks, before, FailedLetters(after, t, reason, now), handled + {t})
  {
    forall id
      ensures DeadCount(FailedLetters(after, t, reason, now), id) == DeadCount(before, id) + Retired(tasks, handled + {t}, id)
    {
      DeadCountPush(after, Letter(t, reason, now), id);
    }
  }

  /** A sweep that handled everything stale leaves nothing stale behind. */
  lemma NothingStale(before: map<nat, Task>, after: map<nat, Task>, handled: set<Task>, reason: string, now: int, cutoff: int)
    requires Swept(before, after, handled, reason, now) && handled == StaleTasks(before, cutoff)
    ensures StaleTasks(after, cutoff) == {}
  {
    forall id | id in after ensures !IsStale(after[id], cutoff) {
      assert IsStale(before[id], cutoff) ==> before[id] in StaleTasks(before, cutoff);
    }
  }
}
