/** A pass over the real table, when nobody interferes: it dispatches, client by client in sorted
    order, the first tasks of each client in priority-then-age order, one quantum of them. */
module Dispatching {
  import opened Tasks
  import opened Schedulers
  import opened Fairness
  import opened Starvation

  /** How the database breaks ties between equally good rows. */
  type TieBreak = set<nat> -> nat

  ghost predicate Breaks(pick: TieBreak) {
    forall s: set<nat> {:trigger pick(s)} | s != {} :: pick(s) in s
  }

  function PendingIds(tasks: map<nat, Task>, c: string): set<nat> {
    set id | id in tasks && Claimable(tasks, {}, c, id)
  }

  function BestIds(tasks: map<nat, Task>, c: string): set<nat> {
    set id | id in tasks && Best(tasks, {}, c, id)
  }

  /** DequeueTaskForClient on a table nobody else is using. */
  function Claim(pick: TieBreak, instance: string, tasks: map<nat, Task>, c: string): (Outcome, map<nat, Task>) {
    var best := BestIds(tasks, c);
    var id := pick(best);
    if best == {} || id !in tasks then (NoTask, tasks)
    else (Got(Snapshot(tasks[id], instance)), tasks[id := ClaimedRow(tasks[id], instance)])
  }

  function TableDequeue(pick: TieBreak, instance: string): Dequeue<map<nat, Task>> {
    (tasks, c) => Claim(pick, instance, tasks, c)
  }

  lemma BestIsPending(tasks: map<nat, Task>, c: string)
    ensures BestIds(tasks, c) <= PendingIds(tasks, c)
    ensures BestIds(tasks, c) == {} <==> PendingIds(tasks, c) == {}
  {
    BestExists(tasks, {}, c);
    if id :| id in PendingIds(tasks, c) {
      assert Claimable(tasks, {}, c, id);
      var b :| Best(tasks, {}, c, b);
      assert b in BestIds(tasks, c);
    }
  }

  lemma ClaimTakesOne(pick: TieBreak, instance: string, tasks: map<nat, Task>, c: string)
    requires Breaks(pick) && BestIds(tasks, c) != {}
    ensures var id := pick(BestIds(tasks, c));
            && id in tasks && id in PendingIds(tasks, c) && Best(tasks, {}, c, id)
            && PendingIds(tasks[id := ClaimedRow(tasks[id], instance)], c) == PendingIds(tasks, c) - {id}
  {
    var id := pick(BestIds(tasks, c));
    assert id in BestIds(tasks, c);
    BestIsPending(tasks, c);
    var tasks' := tasks[id := ClaimedRow(tasks[id], instance)];
    forall i ensures i in PendingIds(tasks', c) <==> i in PendingIds(tasks, c) - {id} {
    }
  }

  /** It answers as DequeueTaskForClient is specified to answer when no row is locked. */
  lemma ClaimIsDequeue(pick: TieBreak, instance: string, tasks: map<nat, Task>, c: string)
    requires Breaks(pick)
    ensures var (o, tasks') := TableDequeue(pick, instance)(tasks, c);
            && (o.Got? || o.NoTask?)
            && (o == NoTask <==> forall id :: !Claimable(tasks, {}, c, id))
            && (o == NoTask ==> tasks' == tasks)
            && (o.Got? ==>
                  var id := o.task.id;
                  (forall i | i in tasks :: tasks[i].id == i) ==>
                    && Best(tasks, {}, c, id)
                    && o.task == Snapshot(tasks[id], instance)
                    && tasks' == tasks[id := tasks[id].(status := Running, processedBy := Some(instance))])
  {
    BestIsPending(tasks, c);
    forall id ensures Claimable(tasks, {}, c, id) <==> id in PendingIds(tasks, c) {
    }
    if BestIds(tasks, c) != {} {
      ClaimTakesOne(pick, instance, tasks, c);
    }
  }

  /** The client's queue: its pending rows in the order in which they would be claimed. */
  ghost function Queue(pick: TieBreak, instance: string, tasks: map<nat, Task>, c: string): seq<nat>
    requires Breaks(pick)
    decreases |PendingIds(tasks, c)|
  {
    if BestIds(tasks, c) == {} then []
    else
      ClaimTakesOne(pick, instance, tasks, c);
      var id := pick(BestIds(tasks, c));
      [id] + Queue(pick, instance, tasks[id := ClaimedRow(tasks[id], instance)], c)
  }

  // ---------------------------------------------------------------- what the queue is

  /** The rows agree wherever they are pending for this client. */
  ghost predicate SamePending(a: map<nat, Task>, b: map<nat, Task>, c: string) {
    forall id :: (Claimable(a, {}, c, id) <==> Claimable(b, {}, c, id)) && (Claimable(a, {}, c, id) ==> a[id] == b[id])
  }

  lemma SameBestIds(a: map<nat, Task>, b: map<nat, Task>, c: string)
    requires SamePending(a, b, c)
    ensures BestIds(a, c) == BestIds(b, c)
  {
    forall id ensures id in BestIds(a, c) <==> id in BestIds(b, c) {
      assert Claimable(a, {}, c, id) <==> Claimable(b, {}, c, id);
      if Claimable(a, {}, c, id) {
        forall other ensures (other in a && Claimable(a, {}, c, other) && Before(a[other], a[id])) <==>
                             (other in b && Claimable(b, {}, c, other) && Before(b[other], b[id])) {
        }
      }
    }
  }

  lemma SameAfterClaim(a: map<nat, Task>, b: map<nat, Task>, c: string, id: nat, instance: string)
    requires SamePending(a, b, c) && Claimable(a, {}, c, id) && id in b
    ensures SamePending(a[id := ClaimedRow(a[id], instance)], b[id := ClaimedRow(b[id], instance)], c)
  {
    var a', b' := a[id := ClaimedRow(a[id], instance)], b[id := ClaimedRow(b[id], instance)];
    forall i ensures (Claimable(a', {}, c, i) <==> Claimable(b', {}, c, i)) && (Claimable(a', {}, c, i) ==> a'[i] == b'[i]) {
      assert i != id ==> (Claimable(a', {}, c, i) <==> Claimable(a, {}, c, i)) && (Claimable(b', {}, c, i) <==> Claimable(b, {}, c, i));
    }
  }

  lemma {:induction false} SameQueue(pick: TieBreak, instance: string, a: map<nat, Task>, b: map<nat, Task>, c: string)
    requires Breaks(pick) && SamePending(a, b, c)
    ensures Queue(pick, instance, a, c) == Queue(pick, instance, b, c)
    decreases |PendingIds(a, c)|
  {
    SameBestIds(a, b, c);
    if BestIds(a, c) != {} {
      var id := pick(BestIds(a, c));
      ClaimTakesOne(pick, instance, a, c);
      ClaimTakesOne(pick, instance, b, c);
      SameAfterClaim(a, b, c, id, instance);
      SameQueue(pick, instance, a[id := ClaimedRow(a[id], instance)], b[id := ClaimedRow(b[id], instance)], c);
    }
  }

  lemma OtherClientsKeep(tasks: map<nat, Task>, c: string, x: string, id: nat, instance: string)
    requires id in tasks && tasks[id].client == c && x != c
    ensures SamePending(tasks, tasks[id := ClaimedRow(tasks[id], instance)], x)
  {
  }

  /** The queue holds exactly the client's pending rows, each once, and never a better row after
      a worse one. */
  lemma {:induction false} QueueIsInOrder(pick: TieBreak, instance: string, tasks: map<nat, Task>, c: string)
    requires Breaks(pick)
    ensures var q := Queue(pick, instance, tasks, c);
            && (forall id :: id in q <==> id in PendingIds(tasks, c))
            && (forall i, j | 0 <= i < j < |q| :: q[i] != q[j])
            && (forall i, j | 0 <= i < j < |q| && q[i] in tasks && q[j] in tasks ::
                  || tasks[q[i]].priority > tasks[q[j]].priority
                  || (tasks[q[i]].priority == tasks[q[j]].priority && tasks[q[i]].createdAt <= tasks[q[j]].createdAt))
    decreases |PendingIds(tasks, c)|
  {
    BestIsPending(tasks, c);
    if BestIds(tasks, c) != {} {
      var id := pick(BestIds(tasks, c));
      var tasks' := tasks[id := ClaimedRow(tasks[id], instance)];
      ClaimTakesOne(pick, instance, tasks, c);
      QueueIsInOrder(pick, instance, tasks', c);
      var q' := Queue(pick, instance, tasks', c);
      assert Queue(pick, instance, tasks, c) == [id] + q';
      forall j | 0 <= j < |q'| ensures q'[j] in PendingIds(tasks, c) && q'[j] != id && !Before(tasks[q'[j]], tasks[id]) {
        assert q'[j] in PendingIds(tasks', c);
        assert Claimable(tasks, {}, c, q'[j]);
      }
    }
  }

  // ---------------------------------------------------------------- the pass

  function Min(a: int, b: int): int {
    if a < b then a else b
  }

  ghost predicate InTable(tasks: map<nat, Task>, ids: seq<nat>) {
    forall i | 0 <= i < |ids| :: ids[i] in tasks
  }

  /** What workers receive for these rows. */
  ghost function Handed(tasks: map<nat, Task>, ids: seq<nat>, instance: string): (r: seq<Task>)
    requires InTable(tasks, ids)
    ensures |r| == |ids|
  {
    seq(|ids|, i requires 0 <= i < |ids| => Snapshot(tasks[ids[i]], instance))
  }

  /** The first d tasks of the client's queue. */
  ghost function Share(pick: TieBreak, instance: string, tasks: map<nat, Task>, c: string, d: nat): seq<Task>
    requires Breaks(pick)
  {
    QueueInTable(pick, instance, tasks, c);
    var q := Queue(pick, instance, tasks, c);
    Handed(tasks, q[..Min(d, |q|)], instance)
  }

  lemma QueueInTable(pick: TieBreak, instance: string, tasks: map<nat, Task>, c: string)
    requires Breaks(pick)
    ensures var q := Queue(pick, instance, tasks, c);
            && InTable(tasks, q) && (forall i | 0 <= i < |q| :: Claimable(tasks, {}, c, q[i]))
            && forall n | 0 <= n <= |q| :: InTable(tasks, q[..n])
  {
    QueueIsInOrder(pick, instance, tasks, c);
    var q := Queue(pick, instance, tasks, c);
    forall i | 0 <= i < |q| ensures q[i] in tasks && Claimable(tasks, {}, c, q[i]) {
      assert q[i] in PendingIds(tasks, c);
    }
  }

  ghost function FairShares(pick: TieBreak, instance: string, tasks: map<nat, Task>, clients: seq<string>, quantum: nat): seq<Dispatch>
    requires Breaks(pick)
  {
    if clients == [] then []
    else Tagged(clients[0], Share(pick, instance, tasks, clients[0], quantum)) + FairShares(pick, instance, tasks, clients[1..], quantum)
  }

  /** A claim takes the head of the queue and leaves the tail. */
  lemma ClaimTakesHead(pick: TieBreak, instance: string, tasks: map<nat, Task>, c: string)
    requires Breaks(pick) && Queue(pick, instance, tasks, c) != []
    ensures var q := Queue(pick, instance, tasks, c);
            var (o, tasks') := TableDequeue(pick, instance)(tasks, c);
            && q[0] in tasks && o == Got(Snapshot(tasks[q[0]], instance)) && Queue(pick, instance, tasks', c) == q[1..]
            && forall x | x != c :: SamePending(tasks, tasks', x)
  {
    var id := pick(BestIds(tasks, c));
    ClaimTakesOne(pick, instance, tasks, c);
    assert Queue(pick, instance, tasks, c) == [id] + Queue(pick, instance, tasks[id := ClaimedRow(tasks[id], instance)], c);
    var tasks' := tasks[id := ClaimedRow(tasks[id], instance)];
    forall x | x != c ensures SamePending(tasks, tasks', x) {
      assert Claimable(tasks, {}, c, id);
      OtherClientsKeep(tasks, c, x, id, instance);
    }
  }

  lemma HandedSame(a: map<nat, Task>, b: map<nat, Task>, ids: seq<nat>, instance: string)
    requires forall i | 0 <= i < |ids| :: ids[i] in a && ids[i] in b && a[ids[i]] == b[ids[i]]
    ensures Handed(a, ids, instance) == Handed(b, ids, instance)
  {
  }

  lemma HandedHead(tasks: map<nat, Task>, ids: seq<nat>, instance: string)
    requires ids != [] && InTable(tasks, ids)
    ensures Handed(tasks, ids, instance) == [Snapshot(tasks[ids[0]], instance)] + Handed(tasks, ids[1..], instance)
  {
  }

  lemma ShareOfRest(pick: TieBreak, instance: string, tasks: map<nat, Task>, c: string, d: nat)
    requires Breaks(pick) && d > 0 && Queue(pick, instance, tasks, c) != []
    ensures var q := Queue(pick, instance, tasks, c);
            var tasks' := TableDequeue(pick, instance)(tasks, c).1;
            q[0] in tasks && Share(pick, instance, tasks, c, d) == [Snapshot(tasks[q[0]], instance)] + Share(pick, instance, tasks', c, d - 1)
  {
    var q := Queue(pick, instance, tasks, c);
    var tasks' := TableDequeue(pick, instance)(tasks, c).1;
    ClaimTakesHead(pick, instance, tasks, c);
    QueueInTable(pick, instance, tasks, c);
    var ids := q[..Min(d, |q|)];
    assert ids[1..] == q[1..][..Min(d - 1, |q| - 1)];
    HandedHead(tasks, ids, instance);
    TailIsUntouched(pick, instance, tasks, c);
    HandedSame(tasks, tasks', ids[1..], instance);
  }

  lemma TailIsUntouched(pick: TieBreak, instance: string, tasks: map<nat, Task>, c: string)
    requires Breaks(pick) && Queue(pick, instance, tasks, c) != []
    ensures var q := Queue(pick, instance, tasks, c);
            var tasks' := TableDequeue(pick, instance)(tasks, c).1;
            forall i | 0 < i < |q| :: q[i] in tasks && q[i] in tasks' && tasks'[q[i]] == tasks[q[i]]
  {
    QueueIsInOrder(pick, instance, tasks, c);
    QueueInTable(pick, instance, tasks, c);
    ClaimTakesOne(pick, instance, tasks, c);
    assert Queue(pick, instance, tasks, c)[0] == pick(BestIds(tasks, c));
  }

  lemma {:induction false} TurnTakesShare(pick: TieBreak, instance: string, tasks: map<nat, Task>, c: string, d: nat)
    requires Breaks(pick)
    ensures var t := Turn(TableDequeue(pick, instance), tasks, c, d);
            && t.sent == Share(pick, instance, tasks, c, d) && t.deficit == 0 && t.goOn
            && forall x | x != c :: SamePending(tasks, t.env, x)
    decreases d
  {
    if d > 0 && Queue(pick, instance, tasks, c) != [] {
      var tasks' := TableDequeue(pick, instance)(tasks, c).1;
      ClaimTakesHead(pick, instance, tasks, c);
      ShareOfRest(pick, instance, tasks, c, d);
      TurnTakesShare(pick, instance, tasks', c, d - 1);
      forall x | x != c ensures SamePending(tasks, Turn(TableDequeue(pick, instance), tasks, c, d).env, x) {
        assert SamePending(tasks, tasks', x);
        assert SamePending(tasks', Turn(TableDequeue(pick, instance), tasks', c, d - 1).env, x);
      }
    }
  }

  lemma SameShare(pick: TieBreak, instance: string, a: map<nat, Task>, b: map<nat, Task>, c: string, d: nat)
    requires Breaks(pick) && SamePending(a, b, c)
    ensures Share(pick, instance, a, c, d) == Share(pick, instance, b, c, d)
  {
    SameQueue(pick, instance, a, b, c);
    QueueInTable(pick, instance, a, c);
  }

  /** Nothing has happened yet to the queues of these clients. */
  ghost predicate Untouched(tasks: map<nat, Task>, e: map<nat, Task>, clients: seq<string>, deficits: map<string, int>) {
    forall c | c in clients :: SamePending(tasks, e, c) && Deficit(deficits, c) == 0
  }

  lemma TurnInRound(pick: TieBreak, instance: string, tasks: map<nat, Task>, e: map<nat, Task>,
                    clients: seq<string>, deficits: map<string, int>, quantum: nat)
    returns (e': map<nat, Task>, deficits': map<string, int>)
    requires Breaks(pick) && Distinct(clients) && clients != []
    requires Untouched(tasks, e, clients, deficits)
    ensures var c := clients[0];
            var t := Turn(TableDequeue(pick, instance), e, c, Deficit(deficits, c) + quantum);
            t.goOn && t.sent == Share(pick, instance, tasks, c, quantum) && e' == t.env && deficits' == deficits[c := t.deficit]
    ensures Distinct(clients[1..]) && Untouched(tasks, e', clients[1..], deficits')
  {
    var c := clients[0];
    assert c in clients;
    var t := Turn(TableDequeue(pick, instance), e, c, quantum);
    TurnTakesShare(pick, instance, e, c, quantum);
    SameShare(pick, instance, tasks, e, c, quantum);
    e', deficits' := t.env, deficits[c := t.deficit];
    forall x | x in clients[1..] ensures SamePending(tasks, t.env, x) && Deficit(deficits', x) == 0 {
      assert x in clients && x != c;
      assert SamePending(tasks, e, x) && SamePending(e, t.env, x);
    }
  }

  lemma TurnThenRest(pick: TieBreak, instance: string, tasks: map<nat, Task>, e: map<nat, Task>,
                     clients: seq<string>, deficits: map<string, int>, quantum: nat)
    returns (e': map<nat, Task>, deficits': map<string, int>)
    requires Breaks(pick) && Distinct(clients) && clients != [] && Untouched(tasks, e, clients, deficits)
    ensures var c, deq := clients[0], TableDequeue(pick, instance);
            && Turn(deq, e, c, Deficit(deficits, c) + quantum).sent == Share(pick, instance, tasks, c, quantum)
            && Rest(deq, e, clients, deficits, quantum) == Round(deq, e', clients[1..], deficits', quantum)
            && Distinct(clients[1..]) && Untouched(tasks, e', clients[1..], deficits')
  {
    e', deficits' := TurnInRound(pick, instance, tasks, e, clients, deficits, quantum);
    RestGoesOn(TableDequeue(pick, instance), e, clients, deficits, quantum);
  }

  lemma {:induction false} RoundTakesShares(pick: TieBreak, instance: string, tasks: map<nat, Task>, e: map<nat, Task>,
                                            clients: seq<string>, deficits: map<string, int>, quantum: nat)
    requires Breaks(pick) && Distinct(clients)
    requires Untouched(tasks, e, clients, deficits)
    ensures var r := Round(TableDequeue(pick, instance), e, clients, deficits, quantum);
            r.finished && r.log == FairShares(pick, instance, tasks, clients, quantum)
    decreases |clients|, 1
  {
    if clients != [] {
      RestTakesShares(pick, instance, tasks, e, clients, deficits, quantum);
      RoundParts(TableDequeue(pick, instance), e, clients, deficits, quantum);
    }
  }

  lemma {:induction false} RestTakesShares(pick: TieBreak, instance: string, tasks: map<nat, Task>, e: map<nat, Task>,
                                           clients: seq<string>, deficits: map<string, int>, quantum: nat)
    requires Breaks(pick) && clients != [] && Distinct(clients) && Untouched(tasks, e, clients, deficits)
    ensures var c, deq := clients[0], TableDequeue(pick, instance);
            var rest := Rest(deq, e, clients, deficits, quantum);
            && Turn(deq, e, c, Deficit(deficits, c) + quantum).sent == Share(pick, instance, tasks, c, quantum)
            && rest.finished && rest.log == FairShares(pick, instance, tasks, clients[1..], quantum)
    decreases |clients|, 0
  {
    var e', deficits' := TurnThenRest(pick, instance, tasks, e, clients, deficits, quantum);
    RoundTakesShares(pick, instance, tasks, e', clients[1..], deficits', quantum);
  }

  /** An undisturbed pass equals the fair reference. */
  lemma PassIsFair(pick: TieBreak, instance: string, tasks: map<nat, Task>, listing: seq<string>, deficits: map<string, int>, quantum: nat)
    requires Breaks(pick) && Distinct(listing)
    requires forall c | c in deficits :: deficits[c] == 0
    ensures var p := Pass(TableDequeue(pick, instance), tasks, Some(listing), deficits, quantum);
            p.finished && p.log == FairShares(pick, instance, tasks, Sorted(listing), quantum)
  {
    if listing != [] {
      SortedMembers(listing);
      RoundTakesShares(pick, instance, tasks, tasks, Sorted(listing), Kept(deficits, listing), quantum);
    }
  }

  // ---------------------------------------------------------------- places in the queue

  /** How many tasks are dispatched up to and including task id; 0 when it is not waiting. */
  ghost function Place(pick: TieBreak, instance: string, tasks: map<nat, Task>, c: string, id: nat): nat
    requires Breaks(pick)
  {
    PlaceIn(Queue(pick, instance, tasks, c), id)
  }

  function PlaceIn(q: seq<nat>, id: nat): nat {
    if id !in q then 0 else if q[0] == id then 1 else 1 + PlaceIn(q[1..], id)
  }

  lemma PlaceInTail(q: seq<nat>, id: nat)
    requires q != [] && forall i | 0 < i < |q| :: q[i] != q[0]
    ensures PlaceIn(q[1..], id) == if PlaceIn(q, id) == 0 then 0 else PlaceIn(q, id) - 1
  {
    assert id in q <==> id == q[0] || id in q[1..];
  }

  lemma ClaimMovesUp(pick: TieBreak, instance: string, tasks: map<nat, Task>, c: string, x: string, id: nat)
    requires Breaks(pick)
    ensures var p := Place(pick, instance, tasks, c, id);
            var (o, tasks') := TableDequeue(pick, instance)(tasks, x);
            var p' := Place(pick, instance, tasks', c, id);
            && (o.Got? || o.NoTask?)
            && (x == c && p > 0 ==> o.Got? && p' == p - 1) && (x == c && p == 0 ==> p' == 0) && (x != c ==> p' == p)
  {
    QueueIsInOrder(pick, instance, tasks, x);
    var tasks' := TableDequeue(pick, instance)(tasks, x).1;
    if Queue(pick, instance, tasks, x) != [] {
      ClaimTakesHead(pick, instance, tasks, x);
      if x == c {
        PlaceInTail(Queue(pick, instance, tasks, x), id);
      } else {
        SameQueue(pick, instance, tasks, tasks', c);
      }
    }
  }

  lemma PlaceOfWaiting(pick: TieBreak, instance: string, tasks: map<nat, Task>, c: string, id: nat)
    requires Breaks(pick)
    ensures Place(pick, instance, tasks, c, id) > 0 <==> Claimable(tasks, {}, c, id)
  {
    QueueIsInOrder(pick, instance, tasks, c);
    assert Claimable(tasks, {}, c, id) <==> id in PendingIds(tasks, c);
  }
}
