/** The Deficit Round Robin scheduler. A pass is written once as a function of what its
    environment answers, and the method that mutates the deficits is proved against it. */
module Schedulers {
  import opened Tasks

  /** What one round of the inner loop meets: the shutdown signal, an answer of the dequeue, or a
      task that was dequeued and then refused by a pool that is shutting down. */
  datatype Outcome = Got(task: Task) | Refused(task: Task) | NoTask | DbError | CtxDone

  /** The environment of a pass: a state of any kind, and how it answers a client's dequeue. Other
      instances, arrivals and errors are all in there. */
  type Dequeue<!E> = (E, string) -> (Outcome, E)

  datatype Dispatch = Dispatch(client: string, task: Task)

  /** `goOn` is false when the pass is abandoned; `emptied` when the client's queue ran dry. */
  datatype TurnResult<E> = TurnResult(env: E, deficit: int, sent: seq<Task>, emptied: bool, goOn: bool)

  /** One client's turn: dispatch until the deficit is used up. */
  function Turn<E>(deq: Dequeue<E>, e: E, c: string, d: int): TurnResult<E>
    decreases if d > 0 then d else 0
  {
    if d <= 0 then TurnResult(e, d, [], false, true)
    else
      var (o, e') := deq(e, c);
      match o
      case CtxDone => TurnResult(e', d, [], false, false)
      case NoTask => TurnResult(e', 0, [], true, true)
      case DbError => TurnResult(e', d, [], false, true)
      case Refused(_) => TurnResult(e', d, [], false, false)
      case Got(t) =>
        var r := Turn(deq, e', c, d - 1);
        r.(sent := [t] + r.sent)
  }

  /** `served` are the clients whose turn has begun. */
  datatype RoundResult<E> = RoundResult(env: E, deficits: map<string, int>, log: seq<Dispatch>,
                                        served: set<string>, emptied: set<string>, finished: bool)

  function Deficit(deficits: map<string, int>, c: string): int {
    if c in deficits then deficits[c] else 0
  }

  function Tagged(c: string, ts: seq<Task>): (r: seq<Dispatch>)
    ensures |r| == |ts|
  {
    seq(|ts|, i requires 0 <= i < |ts| => Dispatch(c, ts[i]))
  }

  /** One turn per client, in order. */
  function Round<E>(deq: Dequeue<E>, e: E, clients: seq<string>, deficits: map<string, int>, quantum: int): RoundResult<E> {
    if clients == [] then RoundResult(e, deficits, [], {}, {}, true)
    else
      var c := clients[0];
      var t := Turn(deq, e, c, Deficit(deficits, c) + quantum);
      var deficits' := deficits[c := t.deficit];
      var dry := if t.emptied then {c} else {};
      if !t.goOn then RoundResult(t.env, deficits', Tagged(c, t.sent), {c}, dry, false)
      else
        var r := Round(deq, t.env, clients[1..], deficits', quantum);
        r.(log := Tagged(c, t.sent) + r.log, served := {c} + r.served, emptied := dry + r.emptied)
  }

  /** The head of a round, and what follows it unless the pass is abandoned. */
  lemma RoundHead<E>(deq: Dequeue<E>, e: E, clients: seq<string>, deficits: map<string, int>, quantum: int)
    requires clients != []
    ensures var c := clients[0];
            var t := Turn(deq, e, c, Deficit(deficits, c) + quantum);
            var r, rest := Round(deq, e, clients, deficits, quantum), Round(deq, t.env, clients[1..], deficits[c := t.deficit], quantum);
            if t.goOn then r.env == rest.env && r.deficits == rest.deficits && r.log == Tagged(c, t.sent) + rest.log
            else r.env == t.env && r.deficits == deficits[c := t.deficit] && r.log == Tagged(c, t.sent)
  {
  }

  /** The same from the i-th client on. */
  lemma RoundFrom<E>(deq: Dequeue<E>, e: E, clients: seq<string>, i: nat, deficits: map<string, int>, quantum: int)
    returns (t: TurnResult<E>, r: RoundResult<E>, rest: RoundResult<E>)
    requires i < |clients|
    ensures t == Turn(deq, e, clients[i], Deficit(deficits, clients[i]) + quantum)
    ensures r == Round(deq, e, clients[i..], deficits, quantum)
    ensures rest == Round(deq, t.env, clients[i + 1..], deficits[clients[i] := t.deficit], quantum)
    ensures if t.goOn then r.env == rest.env && r.deficits == rest.deficits && r.log == Tagged(clients[i], t.sent) + rest.log
            else r.env == t.env && r.deficits == deficits[clients[i] := t.deficit] && r.log == Tagged(clients[i], t.sent)
  {
    t := Turn(deq, e, clients[i], Deficit(deficits, clients[i]) + quantum);
    r := Round(deq, e, clients[i..], deficits, quantum);
    rest := Round(deq, t.env, clients[i + 1..], deficits[clients[i] := t.deficit], quantum);
    assert clients[i..][1..] == clients[i + 1..];
    RoundHead(deq, e, clients[i..], deficits, quantum);
  }

  /** What has been dispatched so far and what the rest of the turn will add make up the whole. */
  ghost predicate Resumes<E>(all: TurnResult<E>, sent: seq<Task>, rest: TurnResult<E>) {
    all.env == rest.env && all.deficit == rest.deficit && all.goOn == rest.goOn && all.sent == sent + rest.sent
  }

  /** A turn that is at its end has nothing more to add. */
  lemma ResumesLast<E>(all: TurnResult<E>, sent: seq<Task>, deq: Dequeue<E>, e: E, c: string, d: int)
    requires d <= 0 && Resumes(all, sent, Turn(deq, e, c, d))
    ensures all.env == e && all.deficit == d && all.goOn && all.sent == sent
  {
  }

  lemma ResumesOn<E>(all: TurnResult<E>, sent: seq<Task>, deq: Dequeue<E>, e: E, c: string, d: int)
    requires d > 0 && Resumes(all, sent, Turn(deq, e, c, d))
    ensures var (o, e') := deq(e, c);
            match o
            case Got(t) => Resumes(all, sent + [t], Turn(deq, e', c, d - 1))
            case _ => all.env == e' && all.sent == sent && all.deficit == (if o.NoTask? then 0 else d) && all.goOn == (o.NoTask? || o.DbError?)
  {
  }

  /** The log so far and what the rest of the round will add make up the whole. */
  ghost predicate Continues<E>(all: RoundResult<E>, log: seq<Dispatch>, rest: RoundResult<E>) {
    all.env == rest.env && all.deficits == rest.deficits && all.log == log + rest.log
  }

  lemma Joined<E>(all: RoundResult<E>, log: seq<Dispatch>, r: RoundResult<E>, part: seq<Dispatch>, rest: RoundResult<E>)
    requires Continues(all, log, r) && r.env == rest.env && r.deficits == rest.deficits && r.log == part + rest.log
    ensures Continues(all, log + part, rest)
  {
  }

  /** After one more turn it is the rest of the rest that is to come, or nothing. */
  lemma ContinuesOn<E>(all: RoundResult<E>, log: seq<Dispatch>, deq: Dequeue<E>, e: E, clients: seq<string>, i: nat,
                       deficits: map<string, int>, quantum: int)
    requires i < |clients| && Continues(all, log, Round(deq, e, clients[i..], deficits, quantum))
    ensures var c := clients[i];
            var t := Turn(deq, e, c, Deficit(deficits, c) + quantum);
            if t.goOn then Continues(all, log + Tagged(c, t.sent), Round(deq, t.env, clients[i + 1..], deficits[c := t.deficit], quantum))
            else all.env == t.env && all.deficits == deficits[c := t.deficit] && all.log == log + Tagged(c, t.sent)
  {
    var t, r, rest := RoundFrom(deq, e, clients, i, deficits, quantum);
    if t.goOn {
      Joined(all, log, r, Tagged(clients[i], t.sent), rest);
    }
  }

  // ---------------------------------------------------------------- the round order

  /** Byte order of strings. */
  predicate Leq(a: string, b: string) {
    a == [] || (b != [] && (a[0] < b[0] || (a[0] == b[0] && Leq(a[1..], b[1..]))))
  }

  lemma {:induction false} LeqTotal(a: string, b: string)
    ensures Leq(a, b) || Leq(b, a)
  {
    if a != [] && b != [] { LeqTotal(a[1..], b[1..]); }
  }

  lemma {:induction false} LeqAntisymmetric(a: string, b: string)
    requires Leq(a, b) && Leq(b, a)
    ensures a == b
  {
    if a != [] {
      LeqAntisymmetric(a[1..], b[1..]);
      assert a == [a[0]] + a[1..] && b == [b[0]] + b[1..];
    }
  }

  lemma {:induction false} LeqTransitive(a: string, b: string, c: string)
    requires Leq(a, b) && Leq(b, c)
    ensures Leq(a, c)
  {
    if a != [] && a[0] == b[0] == c[0] { LeqTransitive(a[1..], b[1..], c[1..]); }
  }

  /** The same without recursion: the one is a prefix of the other, or smaller where they first differ. */
  predicate InByteOrder(a: string, b: string) {
    a <= b || exists i :: 0 <= i < |a| && i < |b| && a[..i] == b[..i] && a[i] < b[i]
  }

  lemma {:induction false} LeqIs(a: string, b: string)
    ensures Leq(a, b) <==> InByteOrder(a, b)
  {
    if a != [] && b != [] && a[0] == b[0] {
      LeqIs(a[1..], b[1..]);
      SameHead(a, b);
    } else if a != [] && b != [] && a[0] < b[0] {
      assert a[..0] == b[..0];
    }
  }

  lemma SameHead(a: string, b: string)
    requires a != [] && b != [] && a[0] == b[0]
    ensures InByteOrder(a[1..], b[1..]) <==> InByteOrder(a, b)
  {
    assert a == [a[0]] + a[1..] && b == [b[0]] + b[1..];
    if i :| 0 <= i < |a[1..]| && i < |b[1..]| && a[1..][..i] == b[1..][..i] && a[1..][i] < b[1..][i] {
      assert a[..i + 1] == [a[0]] + a[1..][..i] && b[..i + 1] == [b[0]] + b[1..][..i];
      assert a[i + 1] < b[i + 1];
    }
    if i :| 0 <= i < |a| && i < |b| && a[..i] == b[..i] && a[i] < b[i] {
      assert a[1..][..i - 1] == a[..i][1..] && b[1..][..i - 1] == b[..i][1..];
      assert a[1..][i - 1] < b[1..][i - 1];
    }
  }

  function Insert(x: string, s: seq<string>): seq<string> {
    if s == [] || Leq(x, s[0]) then [x] + s else [s[0]] + Insert(x, s[1..])
  }

  function Sorted(s: seq<string>): seq<string> {
    if s == [] then [] else Insert(s[0], Sorted(s[1..]))
  }

  ghost predicate Ordered(s: seq<string>) {
    forall i, j | 0 <= i < j < |s| :: Leq(s[i], s[j])
  }

  ghost predicate Distinct<T>(s: seq<T>) {
    forall i, j | 0 <= i < j < |s| :: s[i] != s[j]
  }

  lemma {:induction false} InsertOk(x: string, s: seq<string>)
    requires Ordered(s)
    ensures Ordered(Insert(x, s)) && multiset(Insert(x, s)) == multiset(s) + multiset{x}
  {
    if s == [] {
    } else if Leq(x, s[0]) {
      forall j | 0 <= j < |s| ensures Leq(x, s[j]) {
        if j > 0 { LeqTransitive(x, s[0], s[j]); }
      }
    } else {
      InsertOk(x, s[1..]);
      LeqTotal(x, s[0]);
      var r := Insert(x, s[1..]);
      assert s == [s[0]] + s[1..];
      forall j | 0 <= j < |r| ensures Leq(s[0], r[j]) {
        assert r[j] in multiset(r);
        assert r[j] == x || r[j] in s[1..];
      }
    }
  }

  lemma {:induction false} SortedOk(s: seq<string>)
    ensures Ordered(Sorted(s)) && multiset(Sorted(s)) == multiset(s)
  {
    if s != [] {
      SortedOk(s[1..]);
      InsertOk(s[0], Sorted(s[1..]));
      assert s == [s[0]] + s[1..];
    }
  }

  lemma LeastIsFirst(s: seq<string>, x: string)
    requires Ordered(s) && x in s
    ensures Leq(s[0], x)
  {
    var i :| 0 <= i < |s| && s[i] == x;
    LeqTotal(x, x);
  }

  lemma SameFirst(s: seq<string>, t: seq<string>)
    requires Ordered(s) && Ordered(t) && multiset(s) == multiset(t) && s != []
    ensures t != [] && s[0] == t[0] && multiset(s[1..]) == multiset(t[1..])
  {
    assert s[0] in multiset(t);
    assert t[0] in multiset(s);
    LeastIsFirst(s, t[0]);
    LeastIsFirst(t, s[0]);
    LeqAntisymmetric(s[0], t[0]);
    TailOf(s);
    TailOf(t);
  }

  lemma TailOf(s: seq<string>)
    requires s != []
    ensures multiset(s[1..]) == multiset(s) - multiset{s[0]}
  {
    assert s == [s[0]] + s[1..];
  }

  /** The order of the turns depends only on which clients are active. */
  lemma {:induction false} OrderIsDetermined(s: seq<string>, t: seq<string>)
    requires Ordered(s) && Ordered(t) && multiset(s) == multiset(t)
    ensures s == t
  {
    if s == [] {
      assert |multiset(t)| == 0;
    } else {
      SameFirst(s, t);
      OrderIsDetermined(s[1..], t[1..]);
      assert s == [s[0]] + s[1..] && t == [t[0]] + t[1..];
    }
  }

  lemma SortedSame(s: seq<string>, t: seq<string>)
    requires multiset(s) == multiset(t)
    ensures Sorted(s) == Sorted(t)
  {
    SortedOk(s);
    SortedOk(t);
    OrderIsDetermined(Sorted(s), Sorted(t));
  }

  // ---------------------------------------------------------------- a pass

  /** Clients get their turns in byte order. */
  ghost predicate InOrder(log: seq<Dispatch>) {
    forall i, j | 0 <= i < j < |log| :: InByteOrder(log[i].client, log[j].client)
  }

  ghost predicate OfClients(log: seq<Dispatch>, clients: seq<string>) {
    forall i | 0 <= i < |log| :: log[i].client in clients
  }

  lemma HeadThenRest(c: string, ts: seq<Task>, rest: seq<Dispatch>, clients: seq<string>)
    requires clients != [] && clients[0] == c && Ordered(clients) && OfClients(rest, clients[1..]) && InOrder(rest)
    ensures OfClients(Tagged(c, ts) + rest, clients) && InOrder(Tagged(c, ts) + rest)
  {
    var log := Tagged(c, ts) + rest;
    forall i, j | 0 <= i < j < |log| ensures InByteOrder(log[i].client, log[j].client) {
      if j < |ts| {
        assert log[i].client == log[j].client;
      } else if i < |ts| {
        assert log[j] == rest[j - |ts|] && log[j].client in clients[1..];
        LeqIs(c, log[j].client);
      } else {
        assert log[i] == rest[i - |ts|] && log[j] == rest[j - |ts|];
      }
    }
  }

  lemma {:induction false} RoundInOrder<E>(deq: Dequeue<E>, e: E, clients: seq<string>, deficits: map<string, int>, quantum: int)
    requires Ordered(clients)
    ensures var log := Round(deq, e, clients, deficits, quantum).log; InOrder(log) && OfClients(log, clients)
    decreases |clients|, 1
  {
    if clients != [] {
      var sent, rest := LogOfRound(deq, e, clients, deficits, quantum);
      HeadThenRest(clients[0], sent, rest, clients);
    }
  }

  lemma OrderedTail(clients: seq<string>)
    requires Ordered(clients) && clients != []
    ensures Ordered(clients[1..])
  {
  }

  lemma {:induction false} LogOfRound<E>(deq: Dequeue<E>, e: E, clients: seq<string>, deficits: map<string, int>, quantum: int)
    returns (sent: seq<Task>, rest: seq<Dispatch>)
    requires Ordered(clients) && clients != []
    ensures Round(deq, e, clients, deficits, quantum).log == Tagged(clients[0], sent) + rest
    ensures InOrder(rest) && OfClients(rest, clients[1..])
    decreases |clients|, 0
  {
    assert clients[0..] == clients;
    var t, _, others := RoundFrom(deq, e, clients, 0, deficits, quantum);
    sent, rest := t.sent, [];
    OrderedTail(clients);
    if t.goOn {
      RoundInOrder(deq, t.env, clients[1..], deficits[clients[0] := t.deficit], quantum);
      rest := others.log;
    }
  }

  function Kept(deficits: map<string, int>, clients: seq<string>): map<string, int> {
    map c | c in deficits && c in clients :: deficits[c]
  }

  /** A whole pass; `listing` is the answer of ClientsWithPendingTasks, or None for its error. */
  function Pass<E>(deq: Dequeue<E>, e: E, listing: Option<seq<string>>, deficits: map<string, int>, quantum: int): RoundResult<E> {
    if listing.None? then RoundResult(e, deficits, [], {}, {}, false)
    else if listing.value == [] then RoundResult(e, map[], [], {}, {}, true)
    else Round(deq, e, Sorted(listing.value), Kept(deficits, listing.value), quantum)
  }

  class Scheduler<!E> {
    const quantum: int
    var deficits: map<string, int>
    var isScheduling: bool

    constructor (q: int)
      ensures quantum == (if q < 1 then 1 else q) && deficits == map[] && !isScheduling
    {
      quantum := if q < 1 then 1 else q;
      deficits := map[];
      isScheduling := false;
    }

    /** Bows out when a pass is running. Otherwise runs one, and has released the guard on
        return, on whichever path it leaves. */
    method ScheduleOnce(deq: Dequeue<E>, e: E, listing: Option<seq<string>>) returns (e': E, log: seq<Dispatch>)
      modifies this
      ensures old(isScheduling) ==> isScheduling && deficits == old(deficits) && e' == e && log == []
      ensures !old(isScheduling) ==>
                && !isScheduling
                && var p := Pass(deq, e, listing, old(deficits), quantum);
                e' == p.env && log == p.log && deficits == p.deficits
    {
      e', log := e, [];
      if isScheduling {
        return;
      }
      isScheduling := true;
      e', log := RunPass(deq, e, listing);
      isScheduling := false;
    }

    method RunPass(deq: Dequeue<E>, e: E, listing: Option<seq<string>>) returns (e': E, log: seq<Dispatch>)
      modifies this`deficits
      ensures var p := Pass(deq, e, listing, old(deficits), quantum);
              e' == p.env && log == p.log && deficits == p.deficits
      ensures InOrder(log) && forall i | 0 <= i < |log| :: listing.Some? && log[i].client in listing.value
    {
      e', log := e, [];
      if listing.None? {
        return;
      }
      if listing.value == [] {
        deficits := map[];
        return;
      }
      deficits := Kept(deficits, listing.value);
      SortedOk(listing.value);
      RoundInOrder(deq, e, Sorted(listing.value), deficits, quantum);
      assert forall c | c in Sorted(listing.value) :: c in multiset(listing.value);
      e', log := RunRound(deq, e, Sorted(listing.value));
    }

    /** The outer loop of the pass. */
    method RunRound(deq: Dequeue<E>, e: E, clients: seq<string>) returns (e': E, log: seq<Dispatch>)
      modifies this`deficits
      ensures var r := Round(deq, e, clients, old(deficits), quantum);
              e' == r.env && log == r.log && deficits == r.deficits
    {
      e', log := e, [];
      ghost var all := Round(deq, e, clients, deficits, quantum);
      for i := 0 to |clients|
        invariant Continues(all, log, Round(deq, e', clients[i..], deficits, quantum))
      {
        ContinuesOn(all, log, deq, e', clients, i, deficits, quantum);
        var sent, goOn;
        e', sent, goOn := TakeTurn(deq, e', clients[i]);
        log := log + Tagged(clients[i], sent);
        if !goOn {
          return;
        }
      }
    }

    /** The inner loop of the pass. */
    method TakeTurn(deq: Dequeue<E>, e: E, c: string) returns (e': E, sent: seq<Task>, goOn: bool)
      modifies this`deficits
      ensures var t := Turn(deq, e, c, Deficit(old(deficits), c) + quantum);
              e' == t.env && sent == t.sent && goOn == t.goOn && deficits == old(deficits)[c := t.deficit]
    {
      ghost var all := Turn(deq, e, c, Deficit(deficits, c) + quantum);
      deficits := deficits[c := Deficit(deficits, c) + quantum];
      e', sent := e, [];
      while deficits[c] > 0
        invariant c in deficits && deficits == old(deficits)[c := deficits[c]]
        invariant Resumes(all, sent, Turn(deq, e', c, deficits[c]))
        decreases deficits[c]
      {
        ResumesOn(all, sent, deq, e', c, deficits[c]);
        var answer := deq(e', c);
        e' := answer.1;
        match answer.0
        case CtxDone => return e', sent, false;
        case NoTask =>
          deficits := deficits[c := 0];
          return e', sent, true;
        case DbError => return e', sent, true;
        case Refused(_) => return e', sent, false;
        case Got(t) =>
          sent := sent + [t];
          deficits := deficits[c := deficits[c] - 1];
      }
      ResumesLast(all, sent, deq, e', c, deficits[c]);
      return e', sent, true;
    }
  }
}
