/** What Deficit Round Robin promises, over one pass and over runs of passes. */
module Fairness {
  import opened Tasks
  import opened Schedulers

  function Sent(log: seq<Dispatch>, c: string): nat {
    if log == [] then 0 else (if log[0].client == c then 1 else 0) + Sent(log[1..], c)
  }

  lemma {:induction false} SentConcat(a: seq<Dispatch>, b: seq<Dispatch>, c: string)
    ensures Sent(a + b, c) == Sent(a, c) + Sent(b, c)
  {
    if a == [] {
      assert a + b == b;
    } else {
      SentConcat(a[1..], b, c);
      assert (a + b)[1..] == a[1..] + b;
    }
  }

  lemma {:induction false} SentTagged(ts: seq<Task>, c: string, x: string)
    ensures Sent(Tagged(c, ts), x) == if x == c then |ts| else 0
  {
    if ts != [] {
      SentTagged(ts[1..], c, x);
      assert Tagged(c, ts)[1..] == Tagged(c, ts[1..]);
    }
  }

  lemma {:induction false} SentPrefix(log: seq<Dispatch>, m: nat, c: string)
    requires m <= |log|
    ensures Sent(log[..m], c) <= Sent(log, c)
  {
    SentConcat(log[..m], log[m..], c);
    assert log[..m] + log[m..] == log;
  }

  // ---------------------------------------------------------------- one turn, one round

  /** A turn spends exactly what it dispatches; only an empty queue forfeits the rest. */
  lemma {:induction false} TurnLedger<E>(deq: Dequeue<E>, e: E, c: string, d: int)
    requires d >= 0
    ensures var t := Turn(deq, e, c, d);
            && 0 <= t.deficit && t.deficit + |t.sent| <= d
            && (t.emptied ==> t.deficit == 0 && t.goOn)
            && (!t.emptied ==> t.deficit + |t.sent| == d)
    decreases d
  {
    if d > 0 {
      TurnLedger(deq, deq(e, c).1, c, d - 1);
    }
  }

  /** Why a turn ends before its deficit is used up: the client's queue is empty, its dequeue failed,
      or, and only then is the pass abandoned, the instance is shutting down. */
  lemma {:induction false} TurnEnds<E(!new)>(deq: Dequeue<E>, e: E, c: string, d: int)
    requires d >= 0
    ensures var t := Turn(deq, e, c, d);
            && (!t.goOn ==> exists x :: deq(x, c).1 == t.env && (deq(x, c).0.CtxDone? || deq(x, c).0.Refused?))
            && (t.emptied ==> exists x :: deq(x, c) == (NoTask, t.env))
            && (t.goOn && t.deficit > 0 ==> exists x :: deq(x, c) == (DbError, t.env))
            && (t.goOn && t.deficit == 0 && !t.emptied ==> |t.sent| == d)
    decreases d
  {
    if d > 0 {
      var (o, e') := deq(e, c);
      if o.Got? {
        TurnEnds(deq, e', c, d - 1);
      } else {
        assert deq(e, c) == (o, e');
      }
    }
  }

  ghost predicate NonNegative(deficits: map<string, int>) {
    forall c | c in deficits :: deficits[c] >= 0
  }

  ghost predicate LedgerOk<E>(r: RoundResult<E>, deficits: map<string, int>, quantum: int, c: string) {
    && (c in r.emptied ==> c in r.served && Deficit(r.deficits, c) == 0 && Sent(r.log, c) <= Deficit(deficits, c) + quantum)
    && (c in r.served && c !in r.emptied ==> Deficit(r.deficits, c) + Sent(r.log, c) == Deficit(deficits, c) + quantum)
    && (c !in r.served ==> Sent(r.log, c) == 0 && Deficit(r.deficits, c) == Deficit(deficits, c))
  }

  /** The round after the first turn; nothing, if that turn abandons the pass. */
  function Rest<E>(deq: Dequeue<E>, e: E, clients: seq<string>, deficits: map<string, int>, quantum: int): RoundResult<E>
    requires clients != []
  {
    var x := clients[0];
    var t := Turn(deq, e, x, Deficit(deficits, x) + quantum);
    if t.goOn then Round(deq, t.env, clients[1..], deficits[x := t.deficit], quantum)
    else RoundResult(t.env, deficits[x := t.deficit], [], {}, {}, false)
  }

  lemma RestGoesOn<E>(deq: Dequeue<E>, e: E, clients: seq<string>, deficits: map<string, int>, quantum: int)
    requires clients != [] && Turn(deq, e, clients[0], Deficit(deficits, clients[0]) + quantum).goOn
    ensures var t := Turn(deq, e, clients[0], Deficit(deficits, clients[0]) + quantum);
            Rest(deq, e, clients, deficits, quantum) == Round(deq, t.env, clients[1..], deficits[clients[0] := t.deficit], quantum)
  {
  }

  /** The head of a round, and the round that follows it. */
  lemma RoundParts<E>(deq: Dequeue<E>, e: E, clients: seq<string>, deficits: map<string, int>, quantum: int)
    requires clients != []
    ensures var x := clients[0];
            var t := Turn(deq, e, x, Deficit(deficits, x) + quantum);
            var r, rest := Round(deq, e, clients, deficits, quantum), Rest(deq, e, clients, deficits, quantum);
            && r.deficits == rest.deficits && r.finished == rest.finished && r.env == rest.env
            && r.served == {x} + rest.served && r.emptied == (if t.emptied then {x} else {}) + rest.emptied
            && r.log == Tagged(x, t.sent) + rest.log
  {
  }

  lemma RoundSent<E>(deq: Dequeue<E>, e: E, clients: seq<string>, deficits: map<string, int>, quantum: int, c: string)
    requires clients != []
    ensures var x := clients[0];
            var t := Turn(deq, e, x, Deficit(deficits, x) + quantum);
            Sent(Round(deq, e, clients, deficits, quantum).log, c) ==
              (if c == x then |t.sent| else 0) + Sent(Rest(deq, e, clients, deficits, quantum).log, c)
  {
    var x := clients[0];
    var t := Turn(deq, e, x, Deficit(deficits, x) + quantum);
    RoundParts(deq, e, clients, deficits, quantum);
    SentTagged(t.sent, x, c);
    SentConcat(Tagged(x, t.sent), Rest(deq, e, clients, deficits, quantum).log, c);
  }

  lemma {:induction false} RoundDomain<E>(deq: Dequeue<E>, e: E, clients: seq<string>, deficits: map<string, int>, quantum: int)
    requires NonNegative(deficits) && quantum >= 1
    ensures var r := Round(deq, e, clients, deficits, quantum);
            NonNegative(r.deficits) && forall c | c in r.deficits :: c in deficits || c in clients
    decreases |clients|
  {
    if clients != [] {
      var x := clients[0];
      var t := Turn(deq, e, x, Deficit(deficits, x) + quantum);
      TurnLedger(deq, e, x, Deficit(deficits, x) + quantum);
      RoundParts(deq, e, clients, deficits, quantum);
      if t.goOn {
        RoundDomain(deq, t.env, clients[1..], deficits[x := t.deficit], quantum);
      }
    }
  }

  lemma {:induction false} RoundServed<E>(deq: Dequeue<E>, e: E, clients: seq<string>, deficits: map<string, int>, quantum: int, c: string)
    requires NonNegative(deficits) && quantum >= 1
    ensures var r := Round(deq, e, clients, deficits, quantum);
            (c in r.served ==> c in clients) && (r.finished && c in clients ==> c in r.served) && (c in r.emptied ==> c in r.served)
    decreases |clients|
  {
    if clients != [] {
      var x := clients[0];
      var t := Turn(deq, e, x, Deficit(deficits, x) + quantum);
      TurnLedger(deq, e, x, Deficit(deficits, x) + quantum);
      RoundParts(deq, e, clients, deficits, quantum);
      assert clients == [x] + clients[1..];
      if t.goOn {
        RoundServed(deq, t.env, clients[1..], deficits[x := t.deficit], quantum, c);
      }
    }
  }

  lemma LedgerHead<E>(r: RoundResult<E>, rest: RoundResult<E>, t: TurnResult<E>, deficits: map<string, int>, quantum: int, x: string)
    requires r.deficits == rest.deficits && r.served == {x} + rest.served && r.emptied == (if t.emptied then {x} else {}) + rest.emptied
    requires Sent(r.log, x) == |t.sent| + Sent(rest.log, x) && x !in rest.served
    requires x !in rest.emptied && LedgerOk(rest, deficits[x := t.deficit], quantum, x)
    requires t.deficit + |t.sent| <= Deficit(deficits, x) + quantum && (t.emptied ==> t.deficit == 0)
    requires !t.emptied ==> t.deficit + |t.sent| == Deficit(deficits, x) + quantum
    ensures LedgerOk(r, deficits, quantum, x)
  {
  }

  lemma LedgerTail<E>(r: RoundResult<E>, rest: RoundResult<E>, t: TurnResult<E>, deficits: map<string, int>, quantum: int, x: string, c: string)
    requires r.deficits == rest.deficits && r.served == {x} + rest.served && r.emptied == (if t.emptied then {x} else {}) + rest.emptied
    requires c != x && Sent(r.log, c) == Sent(rest.log, c) && LedgerOk(rest, deficits[x := t.deficit], quantum, c)
    ensures LedgerOk(r, deficits, quantum, c)
  {
  }

  /** For any environment at all: being served adds one quantum to what a client may dispatch, and
      dispatching is all that takes away from it, unless its queue ran dry. */
  lemma {:induction false} RoundLedger<E>(deq: Dequeue<E>, e: E, clients: seq<string>, deficits: map<string, int>, quantum: int, c: string)
    requires Distinct(clients) && NonNegative(deficits) && quantum >= 1
    ensures LedgerOk(Round(deq, e, clients, deficits, quantum), deficits, quantum, c)
    decreases |clients|
  {
    if clients != [] {
      RestLedger(deq, e, clients, deficits, quantum, c);
      RoundLedgerCons(deq, e, clients, deficits, quantum, c);
    }
  }

  lemma RoundLedgerCons<E>(deq: Dequeue<E>, e: E, clients: seq<string>, deficits: map<string, int>, quantum: int, c: string)
    requires NonNegative(deficits) && quantum >= 1 && clients != []
    requires var rest := Rest(deq, e, clients, deficits, quantum);
             var t := Turn(deq, e, clients[0], Deficit(deficits, clients[0]) + quantum);
             && LedgerOk(rest, deficits[clients[0] := t.deficit], quantum, c)
             && clients[0] !in rest.served && clients[0] !in rest.emptied
    ensures LedgerOk(Round(deq, e, clients, deficits, quantum), deficits, quantum, c)
  {
    var x := clients[0];
    var t := Turn(deq, e, x, Deficit(deficits, x) + quantum);
    var r, rest := Round(deq, e, clients, deficits, quantum), Rest(deq, e, clients, deficits, quantum);
    TurnLedger(deq, e, x, Deficit(deficits, x) + quantum);
    RoundParts(deq, e, clients, deficits, quantum);
    RoundSent(deq, e, clients, deficits, quantum, c);
    assert Deficit(deficits, x) >= 0;
    if c == x {
      LedgerHead(r, rest, t, deficits, quantum, x);
    } else {
      LedgerTail(r, rest, t, deficits, quantum, x, c);
    }
  }

  lemma {:induction false} RestLedger<E>(deq: Dequeue<E>, e: E, clients: seq<string>, deficits: map<string, int>, quantum: int, c: string)
    requires Distinct(clients) && NonNegative(deficits) && quantum >= 1 && clients != []
    ensures var rest := Rest(deq, e, clients, deficits, quantum);
            var t := Turn(deq, e, clients[0], Deficit(deficits, clients[0]) + quantum);
            && LedgerOk(rest, deficits[clients[0] := t.deficit], quantum, c)
            && clients[0] !in rest.served && clients[0] !in rest.emptied
    decreases |clients|, 0
  {
    var x := clients[0];
    var t := Turn(deq, e, x, Deficit(deficits, x) + quantum);
    TurnLedger(deq, e, x, Deficit(deficits, x) + quantum);
    if t.goOn {
      RoundLedger(deq, t.env, clients[1..], deficits[x := t.deficit], quantum, c);
      RoundServed(deq, t.env, clients[1..], deficits[x := t.deficit], quantum, x);
      assert x !in clients[1..];
    }
  }

  ghost predicate Listed(listing: Option<seq<string>>, c: string) {
    listing.Some? && Distinct(listing.value) && c in listing.value
  }

  lemma SortedMembers(s: seq<string>)
    ensures |Sorted(s)| == |s| && (forall c :: c in Sorted(s) <==> c in s) && (Distinct(s) ==> Distinct(Sorted(s)))
  {
    SortedOk(s);
    assert |multiset(s)| == |s| && |multiset(Sorted(s))| == |Sorted(s)|;
    forall c ensures c in Sorted(s) <==> c in s {
      assert c in Sorted(s) <==> c in multiset(Sorted(s));
      assert c in s <==> c in multiset(s);
    }
    if Distinct(s) {
      DistinctIsOnce(s);
      OnceIsDistinct(Sorted(s));
    }
  }

  lemma {:induction false} DistinctIsOnce(s: seq<string>)
    requires Distinct(s)
    ensures forall c :: multiset(s)[c] <= 1
  {
    if s != [] {
      DistinctIsOnce(s[1..]);
      assert s == [s[0]] + s[1..];
      assert multiset(s) == multiset{s[0]} + multiset(s[1..]);
      assert s[0] !in s[1..];
      assert s[0] !in multiset(s[1..]);
    }
  }

  lemma OnceIsDistinct(s: seq<string>)
    requires forall c :: multiset(s)[c] <= 1
    ensures Distinct(s)
  {
    forall i, j | 0 <= i < j < |s| ensures s[i] != s[j] {
      assert s == s[..i] + [s[i]] + s[i + 1..j] + [s[j]] + s[j + 1..];
      assert multiset(s) == multiset(s[..i]) + multiset{s[i]} + multiset(s[i + 1..j]) + multiset{s[j]} + multiset(s[j + 1..]);
      assert multiset(s)[s[i]] >= multiset{s[i]}[s[i]] + multiset{s[j]}[s[i]];
    }
  }

  /** Deficits are never negative, and after a pass only active clients have one. */
  lemma PassLedger<E>(deq: Dequeue<E>, e: E, listing: Option<seq<string>>, deficits: map<string, int>, quantum: int, c: string)
    requires NonNegative(deficits) && quantum >= 1 && (listing.Some? ==> Distinct(listing.value))
    ensures var r := Pass(deq, e, listing, deficits, quantum);
            && NonNegative(r.deficits)
            && (listing.Some? ==> forall x | x in r.deficits :: x in listing.value)
            && (listing.None? ==> r.deficits == deficits)
            && (Listed(listing, c) ==> LedgerOk(r, deficits, quantum, c) && (r.finished ==> c in r.served))
  {
    if listing.Some? && listing.value != [] {
      SortedMembers(listing.value);
      RoundDomain(deq, e, Sorted(listing.value), Kept(deficits, listing.value), quantum);
      RoundServed(deq, e, Sorted(listing.value), Kept(deficits, listing.value), quantum, c);
      RoundLedger(deq, e, Sorted(listing.value), Kept(deficits, listing.value), quantum, c);
    }
  }

  // ---------------------------------------------------------------- runs of passes

  /** A stretch of passes, latest last, from any point of a scheduler's life: `start` are the deficits
      it had then. Between passes anything may happen to the environment. */
  datatype History<E> = NoPass(start: map<string, int>) | Then(before: History<E>, env: E, listing: Option<seq<string>>)

  function Start<E>(h: History<E>): map<string, int> {
    if h.NoPass? then h.start else Start(h.before)
  }

  function After<E>(deq: Dequeue<E>, quantum: int, h: History<E>): map<string, int>
    decreases h, 1
  {
    if h.NoPass? then h.start else Latest(deq, quantum, h).deficits
  }

  function Latest<E>(deq: Dequeue<E>, quantum: int, h: History<E>): RoundResult<E>
    requires h.Then?
    decreases h, 0
  {
    Pass(deq, h.env, h.listing, After(deq, quantum, h.before), quantum)
  }

  function AllSent<E>(deq: Dequeue<E>, quantum: int, h: History<E>): seq<Dispatch> {
    if h.NoPass? then [] else AllSent(deq, quantum, h.before) + Latest(deq, quantum, h).log
  }

  function Passes<E>(h: History<E>): nat {
    if h.NoPass? then 0 else Passes(h.before) + 1
  }

  /** The passes in which the client had its turn. */
  function Turns<E>(deq: Dequeue<E>, quantum: int, h: History<E>, c: string): nat {
    if h.NoPass? then 0
    else Turns(deq, quantum, h.before, c) + (if c in Latest(deq, quantum, h).served then 1 else 0)
  }

  /** The stretch starts without debts, and each listing is a SELECT DISTINCT. */
  ghost predicate WellListed<E>(h: History<E>) {
    if h.NoPass? then NonNegative(h.start)
    else WellListed(h.before) && (h.listing.Some? ==> Distinct(h.listing.value))
  }

  /** One stretch after another. */
  function Append<E>(a: History<E>, b: History<E>): History<E> {
    if b.NoPass? then a else Then(Append(a, b.before), b.env, b.listing)
  }

  lemma {:induction false} StretchListed<E>(deq: Dequeue<E>, quantum: int, a: History<E>, b: History<E>)
    requires WellListed(Append(a, b)) && NonNegative(Start(b))
    ensures WellListed(a) && WellListed(b)
  {
    if b.Then? { StretchListed(deq, quantum, a, b.before); }
  }

  lemma SamePass<E>(deq: Dequeue<E>, quantum: int, a: History<E>, b: History<E>, env: E, listing: Option<seq<string>>)
    requires After(deq, quantum, a) == After(deq, quantum, b)
    ensures Latest(deq, quantum, Then(a, env, listing)) == Latest(deq, quantum, Then(b, env, listing))
    ensures After(deq, quantum, Then(a, env, listing)) == After(deq, quantum, Then(b, env, listing))
  {
  }

  lemma {:induction false} StretchAfter<E>(deq: Dequeue<E>, quantum: int, a: History<E>, b: History<E>)
    requires Start(b) == After(deq, quantum, a)
    ensures After(deq, quantum, Append(a, b)) == After(deq, quantum, b)
  {
    if b.Then? {
      StretchAfter(deq, quantum, a, b.before);
      SamePass(deq, quantum, Append(a, b.before), b.before, b.env, b.listing);
    }
  }

  lemma SentLatest<E>(deq: Dequeue<E>, quantum: int, h: History<E>, log: seq<Dispatch>)
    requires h.Then? && Latest(deq, quantum, h).log == log
    ensures AllSent(deq, quantum, h) == AllSent(deq, quantum, h.before) + log
  {
  }

  lemma {:induction false} StretchSent<E>(deq: Dequeue<E>, quantum: int, a: History<E>, b: History<E>)
    requires Start(b) == After(deq, quantum, a)
    ensures AllSent(deq, quantum, Append(a, b)) == AllSent(deq, quantum, a) + AllSent(deq, quantum, b)
  {
    if b.Then? {
      var log := Latest(deq, quantum, b).log;
      StretchSent(deq, quantum, a, b.before);
      StretchAfter(deq, quantum, a, b.before);
      SamePass(deq, quantum, Append(a, b.before), b.before, b.env, b.listing);
      SentLatest(deq, quantum, b, log);
      SentLatest(deq, quantum, Append(a, b), log);
    }
  }

  /** Every later part of a scheduler's life is a stretch like any other: it starts with the deficits
      the earlier part left, which are not negative, and dispatches what the whole dispatches from
      there on. */
  lemma AnyStretch<E>(deq: Dequeue<E>, quantum: int, a: History<E>, b: History<E>)
    requires quantum >= 1 && WellListed(a) && WellListed(Append(a, b)) && Start(b) == After(deq, quantum, a)
    ensures WellListed(b)
    ensures After(deq, quantum, Append(a, b)) == After(deq, quantum, b)
    ensures AllSent(deq, quantum, Append(a, b)) == AllSent(deq, quantum, a) + AllSent(deq, quantum, b)
  {
    AfterNonNegative(deq, quantum, a);
    StretchListed(deq, quantum, a, b);
    StretchAfter(deq, quantum, a, b);
    StretchSent(deq, quantum, a, b);
  }

  /** Listed in every pass, and its queue never found empty. */
  ghost predicate Backlogged<E>(deq: Dequeue<E>, quantum: int, h: History<E>, c: string) {
    h.Then? ==> Backlogged(deq, quantum, h.before, c) && Listed(h.listing, c) && c !in Latest(deq, quantum, h).emptied
  }

  ghost predicate AllFinished<E>(deq: Dequeue<E>, quantum: int, h: History<E>) {
    h.Then? ==> AllFinished(deq, quantum, h.before) && Latest(deq, quantum, h).finished
  }

  lemma {:induction false} AfterNonNegative<E>(deq: Dequeue<E>, quantum: int, h: History<E>)
    requires quantum >= 1 && WellListed(h)
    ensures NonNegative(After(deq, quantum, h))
  {
    if h.Then? {
      AfterNonNegative(deq, quantum, h.before);
      PassLedger(deq, h.env, h.listing, After(deq, quantum, h.before), quantum, "");
    }
  }

  /** The ledger: what a backlogged client has dispatched, plus the credit it holds, is the credit it
      started with and one quantum for every turn it had, whatever errors, other clients and other
      instances did. */
  lemma {:induction false} Ledger<E>(deq: Dequeue<E>, quantum: int, h: History<E>, c: string)
    requires quantum >= 1 && WellListed(h) && Backlogged(deq, quantum, h, c)
    ensures Sent(AllSent(deq, quantum, h), c) + Deficit(After(deq, quantum, h), c) ==
              Deficit(Start(h), c) + quantum * Turns(deq, quantum, h, c)
  {
    if h.Then? {
      Ledger(deq, quantum, h.before, c);
      LatestAdds(deq, quantum, h, c);
      OneMore(quantum, Turns(deq, quantum, h.before, c));
    }
  }

  lemma OneMore(quantum: int, n: nat)
    ensures quantum * (n + 1) == quantum * n + quantum
  {
  }

  lemma LatestAdds<E>(deq: Dequeue<E>, quantum: int, h: History<E>, c: string)
    requires quantum >= 1 && WellListed(h) && h.Then? && Backlogged(deq, quantum, h, c)
    ensures Sent(AllSent(deq, quantum, h), c) + Deficit(After(deq, quantum, h), c) ==
              Sent(AllSent(deq, quantum, h.before), c) + Deficit(After(deq, quantum, h.before), c)
              + (if c in Latest(deq, quantum, h).served then quantum else 0)
  {
    LatestLedger(deq, quantum, h, c);
    SentConcat(AllSent(deq, quantum, h.before), Latest(deq, quantum, h).log, c);
  }

  lemma LatestLedger<E>(deq: Dequeue<E>, quantum: int, h: History<E>, c: string)
    requires quantum >= 1 && WellListed(h) && h.Then? && Listed(h.listing, c)
    ensures LedgerOk(Latest(deq, quantum, h), After(deq, quantum, h.before), quantum, c)
    ensures Latest(deq, quantum, h).finished ==> c in Latest(deq, quantum, h).served
  {
    AfterNonNegative(deq, quantum, h.before);
    PassLedger(deq, h.env, h.listing, After(deq, quantum, h.before), quantum, c);
  }

  /** When all passes finished, a client that was always listed had a turn in each. */
  lemma {:induction false} TurnsArePasses<E>(deq: Dequeue<E>, quantum: int, h: History<E>, c: string)
    requires quantum >= 1 && WellListed(h) && Backlogged(deq, quantum, h, c) && AllFinished(deq, quantum, h)
    ensures Turns(deq, quantum, h, c) == Passes(h)
  {
    if h.Then? {
      TurnsArePasses(deq, quantum, h.before, c);
      LatestLedger(deq, quantum, h, c);
    }
  }
}
