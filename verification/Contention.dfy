/** Passes over the real table while others are at work on it. A pass blocks whenever the channel is
    full, and in the meantime tasks arrive, clients cancel, and other instances claim, requeue and retry.
    No task starves as long as nothing gets ahead of it. */
module Contention {
  import opened Tasks
  import opened Schedulers
  import opened Fairness
  import opened Starvation
  import opened Dispatching

  /** The table as the next dequeue will see it; the rows that others will write after that dequeue and
      after those that follow; and the tasks that others have taken out of the queue so far. */
  datatype World = World(tasks: map<nat, Task>, schedule: seq<map<nat, Task>>, taken: set<nat>)

  /** The tasks that were waiting and are not waiting any more. */
  function Lost(before: map<nat, Task>, after: map<nat, Task>): set<nat> {
    set id | id in before && Claimable(before, {}, before[id].client, id) && !Claimable(after, {}, before[id].client, id)
  }

  /** Others write what is next in the schedule. */
  function Interfered(w: World): World {
    if w.schedule == [] then w
    else World(w.tasks + w.schedule[0], w.schedule[1..], w.taken + Lost(w.tasks, w.tasks + w.schedule[0]))
  }

  function WorldDequeue(pick: TieBreak, instance: string): Dequeue<World> {
    (w: World, x: string) =>
      var (o, tasks) := Claim(pick, instance, w.tasks, x);
      (o, Interfered(w.(tasks := tasks)))
  }

  /** The state between a dequeue and the interference that follows it. */
  function Claimed(pick: TieBreak, instance: string, w: World, x: string): World {
    w.(tasks := TableDequeue(pick, instance)(w.tasks, x).1)
  }

  /** A dequeue while others are at work: it answers as on the table alone, and then their rows replace what
      was there under those ids and nothing else; they have taken what was waiting and is not waiting for the
      same client any more; and what they will write later is still to come. */
  lemma InterferedIs(pick: TieBreak, instance: string, w: World, x: string, id: nat)
    requires w.schedule != []
    ensures var (o, tasks) := TableDequeue(pick, instance)(w.tasks, x);
            var (o', w') := WorldDequeue(pick, instance)(w, x);
            && o' == o && w'.schedule == w.schedule[1..]
            && (id in w'.tasks <==> id in tasks || id in w.schedule[0])
            && (id in w'.tasks ==> w'.tasks[id] == if id in w.schedule[0] then w.schedule[0][id] else tasks[id])
            && (id in w'.taken <==>
                  id in w.taken || (id in tasks && tasks[id].status == Pending
                                    && (w'.tasks[id].status != Pending || w'.tasks[id].client != tasks[id].client)))
  {
    var tasks := TableDequeue(pick, instance)(w.tasks, x).1;
    var after := tasks + w.schedule[0];
    if id in tasks {
      assert Claimable(tasks, {}, tasks[id].client, id) <==> tasks[id].status == Pending;
      assert Claimable(after, {}, tasks[id].client, id) <==> after[id].status == Pending && after[id].client == tasks[id].client;
    }
  }

  predicate Keyed(tasks: map<nat, Task>) {
    forall id | id in tasks :: tasks[id].id == id
  }

  predicate AllKeyed(w: World) {
    Keyed(w.tasks) && forall i | 0 <= i < |w.schedule| :: Keyed(w.schedule[i])
  }

  /** Whomever the pass dequeues next, and next after that, what the others write in between does not
      make the task wait for more. */
  ghost predicate NothingAhead(pick: TieBreak, instance: string, c: string, id: nat, w: World)
    requires Breaks(pick)
    decreases |w.schedule|
  {
    w.schedule != [] ==>
      forall x ::
        var v := Claimed(pick, instance, w, x);
        && Place(pick, instance, Interfered(v).tasks, c, id) <= Place(pick, instance, v.tasks, c, id)
        && NothingAhead(pick, instance, c, id, Interfered(v))
  }

  // ---------------------------------------------------------------- a task moves up

  lemma WorldStep(pick: TieBreak, instance: string, c: string, id: nat, w: World, x: string)
    requires Breaks(pick) && NothingAhead(pick, instance, c, id, w)
    ensures var (o, w') := WorldDequeue(pick, instance)(w, x);
            var p, p' := Place(pick, instance, w.tasks, c, id), Place(pick, instance, w'.tasks, c, id);
            && (o.Got? || o.NoTask?) && NothingAhead(pick, instance, c, id, w')
            && (x == c && p > 0 ==> o.Got? && p' < p) && (x == c && p == 0 ==> p' == 0) && (x != c ==> p' <= p)
  {
    ClaimMovesUp(pick, instance, w.tasks, c, x, id);
    var v := Claimed(pick, instance, w, x);
    assert WorldDequeue(pick, instance)(w, x).1 == Interfered(v);
  }

  lemma WorldServes(pick: TieBreak, instance: string, c: string, id: nat, ok: World -> bool, place: World -> nat)
    requires Breaks(pick) && (forall w :: ok(w) <==> NothingAhead(pick, instance, c, id, w))
    requires forall w :: place(w) == Place(pick, instance, w.tasks, c, id)
    ensures Serves(WorldDequeue(pick, instance), ok) && Queueing(WorldDequeue(pick, instance), ok, c, place)
  {
    var deq := WorldDequeue(pick, instance);
    forall w, x {:trigger deq(w, x)} | ok(w)
      ensures ok(deq(w, x).1) && (deq(w, x).0.Got? || deq(w, x).0.NoTask?)
      ensures (x == c && place(w) > 0 ==> deq(w, x).0.Got? && place(deq(w, x).1) < place(w))
      ensures (x == c && place(w) == 0 ==> place(deq(w, x).1) == 0) && (x != c ==> place(deq(w, x).1) <= place(w))
    {
      WorldStep(pick, instance, c, id, w, x);
    }
  }

  // ---------------------------------------------------------------- where it went

  ghost predicate Dispatches(log: seq<Dispatch>, c: string, id: nat) {
    exists i :: 0 <= i < |log| && log[i].client == c && log[i].task.id == id
  }

  /** What can become of a task that waits when somebody is dequeued: it still waits, it is gone, or it is
      what the dequeue returned. */
  ghost predicate Tracks<E(!new)>(deq: Dequeue<E>, ok: E -> bool, c: string, id: nat, waits: E -> bool, gone: E -> bool) {
    forall e, x {:trigger deq(e, x)} | ok(e) ::
      && ok(deq(e, x).1)
      && (gone(e) ==> gone(deq(e, x).1))
      && (waits(e) ==> waits(deq(e, x).1) || gone(deq(e, x).1) || (x == c && deq(e, x).0.Got? && deq(e, x).0.task.id == id))
  }

  /** From e to e', with these dispatches on the way. */
  ghost predicate Accounted<E(!new)>(ok: E -> bool, waits: E -> bool, gone: E -> bool, c: string, id: nat, e: E, e': E, log: seq<Dispatch>) {
    && ok(e')
    && (gone(e) ==> gone(e'))
    && (waits(e) ==> waits(e') || gone(e') || Dispatches(log, c, id))
  }

  lemma AccountedOn<E(!new)>(ok: E -> bool, waits: E -> bool, gone: E -> bool, c: string, id: nat, e: E, e': E, e'': E,
                             first: seq<Dispatch>, rest: seq<Dispatch>)
    requires Accounted(ok, waits, gone, c, id, e, e', first) && Accounted(ok, waits, gone, c, id, e', e'', rest)
    ensures Accounted(ok, waits, gone, c, id, e, e'', first + rest)
  {
    InEither(first, rest, c, id);
  }

  lemma InEither(first: seq<Dispatch>, rest: seq<Dispatch>, c: string, id: nat)
    ensures Dispatches(first, c, id) || Dispatches(rest, c, id) ==> Dispatches(first + rest, c, id)
  {
    if i :| 0 <= i < |first| && first[i].client == c && first[i].task.id == id {
      assert (first + rest)[i] == first[i];
    }
    if i :| 0 <= i < |rest| && rest[i].client == c && rest[i].task.id == id {
      assert (first + rest)[|first| + i] == rest[i];
    }
  }

  lemma TaggedCons(x: string, t: Task, ts: seq<Task>)
    ensures Tagged(x, [t] + ts) == [Dispatch(x, t)] + Tagged(x, ts)
  {
  }

  lemma DequeueAccounts<E(!new)>(deq: Dequeue<E>, ok: E -> bool, waits: E -> bool, gone: E -> bool, c: string, id: nat, e: E, x: string)
    requires Tracks(deq, ok, c, id, waits, gone) && ok(e)
    ensures var (o, e') := deq(e, x); Accounted(ok, waits, gone, c, id, e, e', if o.Got? then [Dispatch(x, o.task)] else [])
  {
    var (o, e') := deq(e, x);
    if o.Got? {
      assert [Dispatch(x, o.task)][0] == Dispatch(x, o.task);
    }
  }

  lemma {:induction false} TurnAccounts<E(!new)>(deq: Dequeue<E>, ok: E -> bool, waits: E -> bool, gone: E -> bool, c: string, id: nat,
                                                 e: E, x: string, d: int)
    requires Tracks(deq, ok, c, id, waits, gone) && ok(e)
    ensures var t := Turn(deq, e, x, d); Accounted(ok, waits, gone, c, id, e, t.env, Tagged(x, t.sent))
    decreases if d > 0 then d else 0
  {
    if d > 0 {
      var (o, e') := deq(e, x);
      DequeueAccounts(deq, ok, waits, gone, c, id, e, x);
      if o.Got? {
        var r := Turn(deq, e', x, d - 1);
        TurnAccounts(deq, ok, waits, gone, c, id, e', x, d - 1);
        TaggedCons(x, o.task, r.sent);
        AccountedOn(ok, waits, gone, c, id, e, e', r.env, [Dispatch(x, o.task)], Tagged(x, r.sent));
      }
    }
  }

  lemma {:induction false} RoundAccounts<E(!new)>(deq: Dequeue<E>, ok: E -> bool, waits: E -> bool, gone: E -> bool, c: string, id: nat,
                                                  e: E, clients: seq<string>, deficits: map<string, int>, quantum: int)
    requires Tracks(deq, ok, c, id, waits, gone) && ok(e)
    ensures var r := Round(deq, e, clients, deficits, quantum); Accounted(ok, waits, gone, c, id, e, r.env, r.log)
    decreases |clients|
  {
    if clients != [] {
      var x := clients[0];
      var t, rest := Turn(deq, e, x, Deficit(deficits, x) + quantum), Rest(deq, e, clients, deficits, quantum);
      TurnAccounts(deq, ok, waits, gone, c, id, e, x, Deficit(deficits, x) + quantum);
      if t.goOn {
        RestGoesOn(deq, e, clients, deficits, quantum);
        RoundAccounts(deq, ok, waits, gone, c, id, t.env, clients[1..], deficits[x := t.deficit], quantum);
      }
      RoundParts(deq, e, clients, deficits, quantum);
      AccountedOn(ok, waits, gone, c, id, e, t.env, rest.env, Tagged(x, t.sent), rest.log);
    }
  }

  lemma PassAccounts<E(!new)>(deq: Dequeue<E>, ok: E -> bool, waits: E -> bool, gone: E -> bool, c: string, id: nat, quantum: int, h: History<E>)
    requires Tracks(deq, ok, c, id, waits, gone) && h.Then? && ok(h.env)
    ensures var r := Latest(deq, quantum, h); Accounted(ok, waits, gone, c, id, h.env, r.env, r.log)
  {
    if h.listing.Some? && h.listing.value != [] {
      RoundAccounts(deq, ok, waits, gone, c, id, h.env, Sorted(h.listing.value),
                    Kept(After(deq, quantum, h.before), h.listing.value), quantum);
    }
  }

  lemma WorldKeyed(pick: TieBreak, instance: string, w: World, x: string)
    requires Breaks(pick) && AllKeyed(w)
    ensures AllKeyed(WorldDequeue(pick, instance)(w, x).1) && w.taken <= WorldDequeue(pick, instance)(w, x).1.taken
  {
    var v := Claimed(pick, instance, w, x);
    assert Keyed(v.tasks);
  }

  lemma WorldAccounts(pick: TieBreak, instance: string, w: World, x: string, c: string, id: nat)
    requires Breaks(pick) && AllKeyed(w) && Claimable(w.tasks, {}, c, id)
    ensures var (o, w') := WorldDequeue(pick, instance)(w, x);
            Claimable(w'.tasks, {}, c, id) || id in w'.taken || (x == c && o.Got? && o.task.id == id)
  {
    if BestIds(w.tasks, x) != {} {
      ClaimTakesOne(pick, instance, w.tasks, x);
    }
    var v := Claimed(pick, instance, w, x);
    if Claimable(v.tasks, {}, c, id) {
      assert v.tasks[id].client == c;
    }
  }

  lemma WorldTracks(pick: TieBreak, instance: string, c: string, id: nat, ok: World -> bool, waits: World -> bool, gone: World -> bool)
    requires Breaks(pick) && (forall w :: ok(w) <==> AllKeyed(w))
    requires (forall w :: waits(w) <==> Claimable(w.tasks, {}, c, id)) && (forall w :: gone(w) <==> id in w.taken)
    ensures Tracks(WorldDequeue(pick, instance), ok, c, id, waits, gone)
  {
    var deq := WorldDequeue(pick, instance);
    forall w, x {:trigger deq(w, x)} | ok(w)
      ensures ok(deq(w, x).1) && (gone(w) ==> gone(deq(w, x).1))
      ensures waits(w) ==> waits(deq(w, x).1) || gone(deq(w, x).1) || (x == c && deq(w, x).0.Got? && deq(w, x).0.task.id == id)
    {
      WorldKeyed(pick, instance, w, x);
      if waits(w) { WorldAccounts(pick, instance, w, x, c, id); }
    }
  }

  /** Others took the task out of the queue during the latest pass, or before it and after the one
      before it. */
  ghost predicate TakenLately(pick: TieBreak, instance: string, quantum: int, h: History<World>, c: string, id: nat)
    requires h.Then?
  {
    var deq := WorldDequeue(pick, instance);
    || id in Latest(deq, quantum, h).env.taken
    || (h.before.Then? && Claimable(Latest(deq, quantum, h.before).env.tasks, {}, c, id) && !Claimable(h.env.tasks, {}, c, id))
  }

  /** In some pass of the stretch the task was dispatched, or others took it. */
  ghost predicate DispatchedOrTaken(pick: TieBreak, instance: string, quantum: int, h: History<World>, c: string, id: nat) {
    h.Then? &&
    (DispatchedOrTaken(pick, instance, quantum, h.before, c, id) ||
     Dispatches(Latest(WorldDequeue(pick, instance), quantum, h).log, c, id) ||
     TakenLately(pick, instance, quantum, h, c, id))
  }

  /** Each pass starts with rows that carry their own ids and with nothing taken yet. */
  ghost predicate FreshWorlds(h: History<World>) {
    h.Then? ==> FreshWorlds(h.before) && AllKeyed(h.env) && h.env.taken == {}
  }

  /** A task that waited at the beginning still waits, or was dispatched, or others took it. */
  lemma {:induction false} WhereItWent(pick: TieBreak, instance: string, quantum: int, h: History<World>, c: string, id: nat)
    requires Breaks(pick) && FreshWorlds(h) && h.Then? && Claimable(FirstEnv(h).tasks, {}, c, id)
    ensures || Claimable(Latest(WorldDequeue(pick, instance), quantum, h).env.tasks, {}, c, id)
            || DispatchedOrTaken(pick, instance, quantum, h, c, id)
  {
    if h.before.Then? {
      WhereItWent(pick, instance, quantum, h.before, c, id);
    }
    var ok, waits, gone := (w: World) => AllKeyed(w), (w: World) => Claimable(w.tasks, {}, c, id), (w: World) => id in w.taken;
    WorldTracks(pick, instance, c, id, ok, waits, gone);
    PassAccounts(WorldDequeue(pick, instance), ok, waits, gone, c, id, quantum, h);
  }

  /** No starvation on the real table: from any moment on, whatever arrives and whatever other instances
      and clients do, between passes and in the middle of them, the k-th task in its client's priority-
      then-age order is dispatched within ceil(k / quantum) passes, or others take it out of the queue, as
      long as they put nothing ahead of it; and any other client gets at most that many quanta meanwhile,
      and the credit it had. */
  lemma NoStarvationOnTable(pick: TieBreak, instance: string, quantum: int, h: History<World>, c: string, id: nat, x: string)
    requires Breaks(pick) && quantum >= 1 && WellListed(h) && FreshWorlds(h) && h.Then? && Claimable(FirstEnv(h).tasks, {}, c, id)
    requires NobodyAhead(WorldDequeue(pick, instance), (w: World) => NothingAhead(pick, instance, c, id, w), quantum, h, c,
                         (w: World) => Place(pick, instance, w.tasks, c, id))
    ensures Place(pick, instance, FirstEnv(h).tasks, c, id) <= quantum * Passes(h) ==>
              DispatchedOrTaken(pick, instance, quantum, h, c, id)
    ensures Sent(AllSent(WorldDequeue(pick, instance), quantum, h), x) <= Deficit(Start(h), x) + quantum * Passes(h)
  {
    var deq := WorldDequeue(pick, instance);
    var ok := (w: World) => NothingAhead(pick, instance, c, id, w);
    var place := (w: World) => Place(pick, instance, w.tasks, c, id);
    WorldServes(pick, instance, c, id, ok, place);
    NoStarvation(deq, ok, quantum, h, c, place);
    OthersAreBounded(deq, quantum, h, x);
    PlaceOfWaiting(pick, instance, Latest(deq, quantum, h).env.tasks, c, id);
    WhereItWent(pick, instance, quantum, h, c, id);
  }

  // ---------------------------------------------------------------- when nothing gets ahead

  /** The client's waiting tasks that come before this row, and those that come neither before nor after. */
  function AheadOf(tasks: map<nat, Task>, c: string, r: Task): set<nat> {
    set i | i in tasks && Claimable(tasks, {}, c, i) && Before(tasks[i], r)
  }

  function LevelWith(tasks: map<nat, Task>, c: string, r: Task): set<nat> {
    set i | i in tasks && Claimable(tasks, {}, c, i) && !Before(tasks[i], r) && !Before(r, tasks[i])
  }

  /** The place of a task among equals: the database breaks the tie. */
  ghost function PlaceAmong(pick: TieBreak, equals: set<nat>, id: nat): nat
    requires Breaks(pick)
    decreases |equals|
  {
    if id !in equals then 0
    else if pick(equals) == id then 1
    else 1 + PlaceAmong(pick, equals - {pick(equals)}, id)
  }

  lemma HeadOfQueue(pick: TieBreak, instance: string, tasks: map<nat, Task>, c: string, id: nat)
    requires Breaks(pick) && Claimable(tasks, {}, c, id)
    ensures BestIds(tasks, c) != {}
    ensures var b := pick(BestIds(tasks, c));
            && b in BestIds(tasks, c) && b in tasks
            && var tasks' := tasks[b := ClaimedRow(tasks[b], instance)];
            && |PendingIds(tasks', c)| < |PendingIds(tasks, c)|
            && Place(pick, instance, tasks, c, id) == if b == id then 1 else 1 + Place(pick, instance, tasks', c, id)
  {
    BestIsPending(tasks, c);
    assert id in PendingIds(tasks, c);
    ClaimTakesOne(pick, instance, tasks, c);
    QueueIsInOrder(pick, instance, tasks, c);
    var b := pick(BestIds(tasks, c));
    var rest := Queue(pick, instance, tasks[b := ClaimedRow(tasks[b], instance)], c);
    assert Queue(pick, instance, tasks, c) == [b] + rest;
    assert ([b] + rest)[1..] == rest;
  }

  /** The head of the queue comes from those ahead while there are any, and then from the equals. */
  lemma HeadIsAheadOrLevel(tasks: map<nat, Task>, c: string, id: nat)
    requires Claimable(tasks, {}, c, id)
    ensures AheadOf(tasks, c, tasks[id]) != {} ==> BestIds(tasks, c) <= AheadOf(tasks, c, tasks[id])
    ensures AheadOf(tasks, c, tasks[id]) == {} ==> BestIds(tasks, c) == LevelWith(tasks, c, tasks[id])
  {
    if a :| a in AheadOf(tasks, c, tasks[id]) {
      forall b | b in BestIds(tasks, c) ensures Before(tasks[b], tasks[id]) {
        assert Claimable(tasks, {}, c, a);
      }
    } else {
      forall b ensures b in BestIds(tasks, c) <==> b in LevelWith(tasks, c, tasks[id]) {
        LevelIsBest(tasks, c, id, b);
      }
    }
  }

  lemma LevelIsBest(tasks: map<nat, Task>, c: string, id: nat, b: nat)
    requires Claimable(tasks, {}, c, id) && AheadOf(tasks, c, tasks[id]) == {}
    ensures b in BestIds(tasks, c) <==> b in LevelWith(tasks, c, tasks[id])
  {
    forall i | i in tasks && Claimable(tasks, {}, c, i) ensures !Before(tasks[i], tasks[id]) {
      assert i !in AheadOf(tasks, c, tasks[id]);
    }
  }

  lemma ClaimedAreas(tasks: map<nat, Task>, c: string, r: Task, b: nat, instance: string)
    requires b in tasks
    ensures AheadOf(tasks[b := ClaimedRow(tasks[b], instance)], c, r) == AheadOf(tasks, c, r) - {b}
    ensures LevelWith(tasks[b := ClaimedRow(tasks[b], instance)], c, r) == LevelWith(tasks, c, r) - {b}
  {
    var tasks' := tasks[b := ClaimedRow(tasks[b], instance)];
    forall i ensures i in AheadOf(tasks', c, r) <==> i in AheadOf(tasks, c, r) - {b} {
    }
    forall i ensures i in LevelWith(tasks', c, r) <==> i in LevelWith(tasks, c, r) - {b} {
    }
  }

  /** A task's place: those ahead of it, and then its place among its equals. */
  lemma {:induction false} PlaceIs(pick: TieBreak, instance: string, tasks: map<nat, Task>, c: string, id: nat)
    requires Breaks(pick) && Claimable(tasks, {}, c, id)
    ensures Place(pick, instance, tasks, c, id) ==
              |AheadOf(tasks, c, tasks[id])| + PlaceAmong(pick, LevelWith(tasks, c, tasks[id]), id)
    decreases |PendingIds(tasks, c)|
  {
    var b := pick(BestIds(tasks, c));
    HeadOfQueue(pick, instance, tasks, c, id);
    HeadIsAheadOrLevel(tasks, c, id);
    assert id in LevelWith(tasks, c, tasks[id]);
    if b != id {
      ClaimedAreas(tasks, c, tasks[id], b, instance);
      PlaceIs(pick, instance, tasks[b := ClaimedRow(tasks[b], instance)], c, id);
      assert b in AheadOf(tasks, c, tasks[id]) ==> b !in LevelWith(tasks, c, tasks[id]);
      AreaWithout(AheadOf(tasks, c, tasks[id]), b);
      AreaWithout(LevelWith(tasks, c, tasks[id]), b);
    }
  }

  lemma AreaWithout(area: set<nat>, b: nat)
    ensures |area - {b}| == if b in area then |area| - 1 else |area|
    ensures b !in area ==> area - {b} == area
  {
    if b !in area { assert area - {b} == area; }
  }

  /** Others leave the task and its equals alone, and what they put in its client's queue comes after it. */
  predicate IsPolite(rows: map<nat, Task>, tasks: map<nat, Task>, c: string, id: nat) {
    && id in tasks && id !in rows
    && forall j | j in rows :: j !in LevelWith(tasks, c, tasks[id]) && (rows[j].status == Pending && rows[j].client == c ==> Before(tasks[id], rows[j]))
  }

  predicate AllPolite(w: World, c: string, id: nat) {
    forall i | 0 <= i < |w.schedule| :: IsPolite(w.schedule[i], w.tasks, c, id)
  }

  lemma PoliteAreas(tasks: map<nat, Task>, rows: map<nat, Task>, c: string, id: nat)
    requires IsPolite(rows, tasks, c, id)
    ensures LevelWith(tasks + rows, c, tasks[id]) == LevelWith(tasks, c, tasks[id])
    ensures AheadOf(tasks + rows, c, tasks[id]) <= AheadOf(tasks, c, tasks[id])
  {
    forall i ensures i in LevelWith(tasks + rows, c, tasks[id]) <==> i in LevelWith(tasks, c, tasks[id]) {
    }
  }

  lemma PoliteKeepsPlace(pick: TieBreak, instance: string, tasks: map<nat, Task>, rows: map<nat, Task>, c: string, id: nat)
    requires Breaks(pick) && IsPolite(rows, tasks, c, id)
    ensures Place(pick, instance, tasks + rows, c, id) <= Place(pick, instance, tasks, c, id)
  {
    PlaceOfWaiting(pick, instance, tasks + rows, c, id);
    if Claimable(tasks + rows, {}, c, id) {
      PoliteAreas(tasks, rows, c, id);
      PlaceIs(pick, instance, tasks, c, id);
      PlaceIs(pick, instance, tasks + rows, c, id);
      SubsetSize(AheadOf(tasks + rows, c, tasks[id]), AheadOf(tasks, c, tasks[id]));
    }
  }

  lemma StillPolite(before: map<nat, Task>, after: map<nat, Task>, rows: map<nat, Task>, c: string, id: nat)
    requires IsPolite(rows, before, c, id) && id in after
    requires after[id].priority == before[id].priority && after[id].createdAt == before[id].createdAt
    requires LevelWith(after, c, before[id]) <= LevelWith(before, c, before[id])
    ensures IsPolite(rows, after, c, id)
  {
    assert LevelWith(after, c, after[id]) == LevelWith(after, c, before[id]);
  }

  lemma ClaimedIsPolite(pick: TieBreak, instance: string, c: string, id: nat, w: World, x: string)
    requires Breaks(pick) && AllPolite(w, c, id) && w.schedule != []
    ensures AllPolite(Claimed(pick, instance, w, x), c, id)
  {
    var v := Claimed(pick, instance, w, x);
    forall i | 0 <= i < |v.schedule| ensures IsPolite(v.schedule[i], v.tasks, c, id) {
      assert IsPolite(w.schedule[i], w.tasks, c, id);
      if v.tasks != w.tasks {
        var b := pick(BestIds(w.tasks, x));
        ClaimedAreas(w.tasks, c, w.tasks[id], b, instance);
        StillPolite(w.tasks, v.tasks, w.schedule[i], c, id);
      }
    }
  }

  lemma InterferedIsPolite(v: World, c: string, id: nat)
    requires AllPolite(v, c, id) && v.schedule != []
    ensures AllPolite(Interfered(v), c, id)
  {
    var w := Interfered(v);
    assert IsPolite(v.schedule[0], v.tasks, c, id);
    PoliteAreas(v.tasks, v.schedule[0], c, id);
    forall i | 0 <= i < |w.schedule| ensures IsPolite(w.schedule[i], w.tasks, c, id) {
      assert IsPolite(v.schedule[i + 1], v.tasks, c, id);
      StillPolite(v.tasks, w.tasks, w.schedule[i], c, id);
    }
  }

  /** So nothing gets ahead of a task if whatever is written during the pass is polite: a condition on the
      rows that are written and on the table as it is when the pass begins. */
  lemma {:induction false} PoliteIsNotAhead(pick: TieBreak, instance: string, c: string, id: nat, w: World)
    requires Breaks(pick) && AllPolite(w, c, id)
    ensures NothingAhead(pick, instance, c, id, w)
    decreases |w.schedule|
  {
    if w.schedule != [] {
      forall x
        ensures var v := Claimed(pick, instance, w, x);
                && Place(pick, instance, Interfered(v).tasks, c, id) <= Place(pick, instance, v.tasks, c, id)
                && NothingAhead(pick, instance, c, id, Interfered(v))
      {
        var v := Claimed(pick, instance, w, x);
        ClaimedIsPolite(pick, instance, c, id, w, x);
        assert IsPolite(v.schedule[0], v.tasks, c, id);
        PoliteKeepsPlace(pick, instance, v.tasks, v.schedule[0], c, id);
        InterferedIsPolite(v, c, id);
        PoliteIsNotAhead(pick, instance, c, id, Interfered(v));
      }
    }
  }
}
