/** Bounds over runs of passes: backlogged clients stay within one quantum of each other at every
    instant, and a task waits no longer than its place in its own client's queue demands. */
module Starvation {
  import opened Tasks
  import opened Schedulers
  import opened Fairness

  /** The scheduler is not being shut down. (A condition on all states of the environment is a condition
      on the states in question, as E can be any set of states closed under dequeuing.) */
  ghost predicate NeverStops<E(!new)>(deq: Dequeue<E>) {
    forall e, c :: !deq(e, c).0.CtxDone? && !deq(e, c).0.Refused?
  }

  /** Besides, no dequeue fails. */
  ghost predicate ErrorFree<E(!new)>(deq: Dequeue<E>) {
    forall e, c :: deq(e, c).0.Got? || deq(e, c).0.NoTask?
  }

  lemma {:induction false} TurnGoesOn<E(!new)>(deq: Dequeue<E>, e: E, c: string, d: int)
    requires NeverStops(deq)
    ensures Turn(deq, e, c, d).goOn
    decreases if d > 0 then d else 0
  {
    if d > 0 {
      assert !deq(e, c).0.CtxDone? && !deq(e, c).0.Refused?;
      TurnGoesOn(deq, deq(e, c).1, c, d - 1);
    }
  }

  lemma {:induction false} RoundFinishes<E(!new)>(deq: Dequeue<E>, e: E, clients: seq<string>, deficits: map<string, int>, quantum: int)
    requires NeverStops(deq)
    ensures Round(deq, e, clients, deficits, quantum).finished
    decreases |clients|
  {
    if clients != [] {
      var x := clients[0];
      var t := Turn(deq, e, x, Deficit(deficits, x) + quantum);
      TurnGoesOn(deq, e, x, Deficit(deficits, x) + quantum);
      RoundFinishes(deq, t.env, clients[1..], deficits[x := t.deficit], quantum);
      RoundParts(deq, e, clients, deficits, quantum);
    }
  }

  lemma {:induction false} PassesFinish<E(!new)>(deq: Dequeue<E>, quantum: int, h: History<E>, c: string)
    requires NeverStops(deq) && AlwaysListed(h, c)
    ensures AllFinished(deq, quantum, h)
  {
    if h.Then? {
      PassesFinish(deq, quantum, h.before, c);
      RoundFinishes(deq, h.env, Sorted(h.listing.value), Kept(After(deq, quantum, h.before), h.listing.value), quantum);
    }
  }

  ghost predicate AlwaysListed<E>(h: History<E>, c: string) {
    h.Then? ==> AlwaysListed(h.before, c) && Listed(h.listing, c)
  }

  // ---------------------------------------------------------------- within one quantum

  lemma {:induction false} BackloggedIsListed<E>(deq: Dequeue<E>, quantum: int, h: History<E>, c: string)
    requires Backlogged(deq, quantum, h, c)
    ensures AlwaysListed(h, c)
  {
    if h.Then? { BackloggedIsListed(deq, quantum, h.before, c); }
  }

  lemma ErrorFreeGoesOn<E(!new)>(deq: Dequeue<E>)
    requires ErrorFree(deq)
    ensures NeverStops(deq)
  {
    forall e, c ensures !deq(e, c).0.CtxDone? && !deq(e, c).0.Refused? {
      assert deq(e, c).0.Got? || deq(e, c).0.NoTask?;
    }
  }

  predicate AllZero(deficits: map<string, int>) {
    forall c | c in deficits :: deficits[c] == 0
  }

  lemma {:induction false} TurnSpendsAll<E(!new)>(deq: Dequeue<E>, e: E, c: string, d: int)
    requires ErrorFree(deq) && d >= 0
    ensures Turn(deq, e, c, d).deficit == 0 && Turn(deq, e, c, d).goOn
    decreases d
  {
    if d > 0 {
      assert deq(e, c).0.Got? || deq(e, c).0.NoTask?;
      TurnSpendsAll(deq, deq(e, c).1, c, d - 1);
    }
  }

  /** Whoever has credit has a turn to spend it in. */
  ghost predicate CreditIsListed(deficits: map<string, int>, clients: seq<string>) {
    forall c | c in deficits && deficits[c] != 0 :: c in clients
  }

  lemma {:induction false} RoundSpendsAll<E(!new)>(deq: Dequeue<E>, e: E, clients: seq<string>, deficits: map<string, int>, quantum: int)
    requires ErrorFree(deq) && quantum >= 1 && NonNegative(deficits) && CreditIsListed(deficits, clients)
    ensures AllZero(Round(deq, e, clients, deficits, quantum).deficits)
    decreases |clients|
  {
    if clients != [] {
      var x := clients[0];
      var t := Turn(deq, e, x, Deficit(deficits, x) + quantum);
      TurnSpendsAll(deq, e, x, Deficit(deficits, x) + quantum);
      CreditOfRest(deficits, clients);
      RoundSpendsAll(deq, t.env, clients[1..], deficits[x := 0], quantum);
      RoundParts(deq, e, clients, deficits, quantum);
    }
  }

  lemma CreditOfRest(deficits: map<string, int>, clients: seq<string>)
    requires clients != [] && CreditIsListed(deficits, clients)
    ensures CreditIsListed(deficits[clients[0] := 0], clients[1..])
  {
    assert clients == [clients[0]] + clients[1..];
  }

  /** Some pass got its listing, or there was no credit to begin with. */
  ghost predicate Cleared<E>(h: History<E>) {
    if h.NoPass? then AllZero(h.start) else h.listing.Some? || Cleared(h.before)
  }

  /** Without errors no credit is carried over a pass boundary, not even credit from before. */
  lemma {:induction false} NoCreditCarried<E(!new)>(deq: Dequeue<E>, quantum: int, h: History<E>)
    requires ErrorFree(deq) && quantum >= 1 && WellListed(h) && Cleared(h)
    ensures AllZero(After(deq, quantum, h))
  {
    if h.Then? {
      if h.listing.None? {
        NoCreditCarried(deq, quantum, h.before);
        assert After(deq, quantum, h) == Pass(deq, h.env, h.listing, After(deq, quantum, h.before), quantum).deficits;
      } else if h.listing.value != [] {
        AfterNonNegative(deq, quantum, h.before);
        PassSpendsAll(deq, h.env, h.listing.value, After(deq, quantum, h.before), quantum);
      }
    }
  }

  lemma PassSpendsAll<E(!new)>(deq: Dequeue<E>, e: E, clients: seq<string>, deficits: map<string, int>, quantum: int)
    requires ErrorFree(deq) && quantum >= 1 && NonNegative(deficits) && Distinct(clients)
    ensures AllZero(Pass(deq, e, Some(clients), deficits, quantum).deficits)
  {
    SortedMembers(clients);
    if clients != [] {
      RoundSpendsAll(deq, e, Sorted(clients), Kept(deficits, clients), quantum);
    }
  }

  /** Each pass gives a backlogged client exactly one quantum, and the first one what credit it had
      besides. */
  lemma OneQuantumAPass<E(!new)>(deq: Dequeue<E>, quantum: int, h: History<E>, c: string)
    requires ErrorFree(deq) && quantum >= 1 && WellListed(h) && Backlogged(deq, quantum, h, c) && h.Then?
    ensures Deficit(After(deq, quantum, h), c) == 0
    ensures Sent(AllSent(deq, quantum, h), c) == Deficit(Start(h), c) + quantum * Passes(h)
  {
    NoCreditCarried(deq, quantum, h);
    Ledger(deq, quantum, h, c);
    BackloggedIsListed(deq, quantum, h, c);
    ErrorFreeGoesOn(deq);
    PassesFinish(deq, quantum, h, c);
    TurnsArePasses(deq, quantum, h, c);
  }

  /** At every instant, even in the middle of a pass, two backlogged clients' totals are within one
      quantum of each other, and the credit the one ahead started with, however many others there are. */
  lemma {:induction false} FairAtEveryInstant<E(!new)>(deq: Dequeue<E>, quantum: int, h: History<E>, a: string, b: string, m: nat)
    requires ErrorFree(deq) && quantum >= 1 && WellListed(h)
    requires Backlogged(deq, quantum, h, a) && Backlogged(deq, quantum, h, b) && m <= |AllSent(deq, quantum, h)|
    ensures var soFar := AllSent(deq, quantum, h)[..m];
            -quantum - Deficit(Start(h), b) <= Sent(soFar, a) - Sent(soFar, b) <= quantum + Deficit(Start(h), a)
  {
    if h.Then? {
      var earlier, latest := AllSent(deq, quantum, h.before), Latest(deq, quantum, h).log;
      if m <= |earlier| {
        FairAtEveryInstant(deq, quantum, h.before, a, b, m);
        assert (earlier + latest)[..m] == earlier[..m];
      } else {
        StartIsOwed(h, a);
        StartIsOwed(h, b);
        SentSoFar(deq, quantum, h, a, m);
        SentSoFar(deq, quantum, h, b, m);
      }
    }
  }

  lemma {:induction false} StartIsOwed<E>(h: History<E>, c: string)
    requires WellListed(h)
    ensures Deficit(Start(h), c) >= 0
  {
    if h.Then? { StartIsOwed(h.before, c); }
  }

  /** What a backlogged client has been given when the latest pass is under way. */
  lemma SentSoFar<E(!new)>(deq: Dequeue<E>, quantum: int, h: History<E>, c: string, m: nat)
    requires ErrorFree(deq) && quantum >= 1 && WellListed(h) && Backlogged(deq, quantum, h, c)
    requires h.Then? && |AllSent(deq, quantum, h.before)| <= m <= |AllSent(deq, quantum, h)|
    ensures var sent := Sent(AllSent(deq, quantum, h)[..m], c);
            var owed := quantum * Passes(h.before);
            && (h.before.Then? ==> Deficit(Start(h), c) + owed <= sent)
            && sent <= Deficit(Start(h), c) + owed + quantum
  {
    var earlier, latest := AllSent(deq, quantum, h.before), Latest(deq, quantum, h).log;
    assert (earlier + latest)[..m] == earlier + latest[..m - |earlier|];
    if h.before.Then? {
      OneQuantumAPass(deq, quantum, h.before, c);
    }
    OneQuantumAPass(deq, quantum, h, c);
    OneMore(quantum, Passes(h.before));
    SentConcat(earlier, latest, c);
    SentConcat(earlier, latest[..m - |earlier|], c);
    SentPrefix(latest, m - |earlier|, c);
  }

  // ---------------------------------------------------------------- no starvation

  /** States among which the scheduler stays when it dequeues, and in which it is not being shut down. */
  ghost predicate Serves<E(!new)>(deq: Dequeue<E>, ok: E -> bool) {
    forall e, x {:trigger deq(e, x)} | ok(e) :: ok(deq(e, x).1) && !deq(e, x).0.CtxDone? && !deq(e, x).0.Refused?
  }

  /** `place` says how many tasks of client c are dispatched up to and including ours: dequeuing c
      moves it up by one at least, and nothing else moves it down. */
  ghost predicate Queueing<E(!new)>(deq: Dequeue<E>, ok: E -> bool, c: string, place: E -> nat) {
    && (forall e {:trigger deq(e, c)} | ok(e) && place(e) > 0 :: deq(e, c).0.Got? && place(deq(e, c).1) < place(e))
    && (forall e {:trigger deq(e, c)} | ok(e) && place(e) == 0 :: place(deq(e, c).1) == 0)
    && (forall e, x {:trigger deq(e, x)} | ok(e) && x != c :: place(deq(e, x).1) <= place(e))
  }

  /** Between passes nobody gets ahead of our task, and while it waits its client is listed. */
  ghost predicate NobodyAhead<E(!new)>(deq: Dequeue<E>, ok: E -> bool, quantum: int, h: History<E>, c: string, place: E -> nat) {
    h.Then? ==>
      && NobodyAhead(deq, ok, quantum, h.before, c, place)
      && (h.before.Then? ==> place(h.env) <= place(Latest(deq, quantum, h.before).env))
      && ok(h.env) && (place(h.env) > 0 ==> Listed(h.listing, c))
  }

  function FirstEnv<E>(h: History<E>): E
    requires h.Then?
  {
    if h.before.NoPass? then h.env else FirstEnv(h.before)
  }

  function Minus(a: int, b: int): int {
    if a <= b then 0 else a - b
  }

  lemma {:induction false} TurnMovesUp<E(!new)>(deq: Dequeue<E>, ok: E -> bool, e: E, c: string, x: string, d: int, place: E -> nat)
    requires Serves(deq, ok) && Queueing(deq, ok, c, place) && ok(e) && d >= 0
    ensures var t := Turn(deq, e, x, d);
            t.goOn && ok(t.env) && place(t.env) <= if x == c then Minus(place(e), d) else place(e)
    decreases d
  {
    if d > 0 {
      var (o, e') := deq(e, x);
      if o.Got? {
        TurnMovesUp(deq, ok, e', c, x, d - 1, place);
      }
    }
  }

  lemma {:induction false} RoundMovesUp<E(!new)>(deq: Dequeue<E>, ok: E -> bool, e: E, clients: seq<string>, deficits: map<string, int>,
                                                 quantum: int, c: string, place: E -> nat)
    requires Serves(deq, ok) && Queueing(deq, ok, c, place) && ok(e) && NonNegative(deficits) && quantum >= 1
    ensures place(Round(deq, e, clients, deficits, quantum).env) <= if c in clients then Minus(place(e), quantum) else place(e)
    decreases |clients|
  {
    if clients != [] {
      var x := clients[0];
      var t := Turn(deq, e, x, Deficit(deficits, x) + quantum);
      FirstMovesUp(deq, ok, e, x, deficits, quantum, c, place);
      RoundMovesUp(deq, ok, t.env, clients[1..], deficits[x := t.deficit], quantum, c, place);
      RoundParts(deq, e, clients, deficits, quantum);
      RestGoesOn(deq, e, clients, deficits, quantum);
      FirstOrLater(clients, c);
    }
  }

  lemma FirstOrLater(clients: seq<string>, c: string)
    requires clients != []
    ensures c in clients <==> c == clients[0] || c in clients[1..]
  {
  }

  lemma FirstMovesUp<E(!new)>(deq: Dequeue<E>, ok: E -> bool, e: E, x: string, deficits: map<string, int>, quantum: int,
                              c: string, place: E -> nat)
    requires Serves(deq, ok) && Queueing(deq, ok, c, place) && ok(e) && NonNegative(deficits) && quantum >= 1
    ensures var t := Turn(deq, e, x, Deficit(deficits, x) + quantum);
            && t.goOn && ok(t.env) && NonNegative(deficits[x := t.deficit])
            && place(t.env) <= if x == c then Minus(place(e), quantum) else place(e)
  {
    var d := Deficit(deficits, x) + quantum;
    TurnLedger(deq, e, x, d);
    TurnMovesUp(deq, ok, e, c, x, d, place);
  }

  lemma PassMovesUp<E(!new)>(deq: Dequeue<E>, ok: E -> bool, quantum: int, h: History<E>, c: string, place: E -> nat)
    requires Serves(deq, ok) && Queueing(deq, ok, c, place) && quantum >= 1 && WellListed(h) && h.Then?
    requires ok(h.env) && (place(h.env) > 0 ==> Listed(h.listing, c))
    ensures place(Latest(deq, quantum, h).env) <= Minus(place(h.env), quantum)
  {
    AfterNonNegative(deq, quantum, h.before);
    if h.listing.Some? && h.listing.value != [] {
      SortedMembers(h.listing.value);
      RoundMovesUp(deq, ok, h.env, Sorted(h.listing.value), Kept(After(deq, quantum, h.before), h.listing.value), quantum, c, place);
    }
  }

  /** No starvation: after n passes a task has moved up n quanta in its client's queue, whatever the
      backlogs of the others, so one that was k-th is gone once n * quantum reaches k. */
  lemma {:induction false} NoStarvation<E(!new)>(deq: Dequeue<E>, ok: E -> bool, quantum: int, h: History<E>, c: string, place: E -> nat)
    requires Serves(deq, ok) && Queueing(deq, ok, c, place) && quantum >= 1 && WellListed(h)
    requires h.Then? && NobodyAhead(deq, ok, quantum, h, c, place)
    ensures place(Latest(deq, quantum, h).env) <= Minus(place(FirstEnv(h)), quantum * Passes(h))
  {
    PassMovesUp(deq, ok, quantum, h, c, place);
    OneMore(quantum, Passes(h.before));
    if h.before.Then? {
      NoStarvation(deq, ok, quantum, h.before, c, place);
    }
  }

  /** Meanwhile every other client has been given at most one quantum per pass, besides the credit it
      started with, whatever errors there were. */
  lemma {:induction false} OthersAreBounded<E>(deq: Dequeue<E>, quantum: int, h: History<E>, x: string)
    requires quantum >= 1 && WellListed(h)
    ensures Sent(AllSent(deq, quantum, h), x) + Deficit(After(deq, quantum, h), x) <= Deficit(Start(h), x) + quantum * Passes(h)
    ensures Deficit(After(deq, quantum, h), x) >= 0
  {
    if h.Then? {
      OthersAreBounded(deq, quantum, h.before, x);
      PassIsBounded(deq, quantum, h, x);
      SentConcat(AllSent(deq, quantum, h.before), Latest(deq, quantum, h).log, x);
      OneMore(quantum, Passes(h.before));
    }
  }

  lemma PassIsBounded<E>(deq: Dequeue<E>, quantum: int, h: History<E>, x: string)
    requires quantum >= 1 && WellListed(h) && h.Then?
    ensures 0 <= Deficit(After(deq, quantum, h), x)
    ensures Deficit(After(deq, quantum, h), x) + Sent(Latest(deq, quantum, h).log, x) <= Deficit(After(deq, quantum, h.before), x) + quantum
  {
    AfterNonNegative(deq, quantum, h.before);
    AfterNonNegative(deq, quantum, h);
    if h.listing.Some? && h.listing.value != [] {
      var kept := Kept(After(deq, quantum, h.before), h.listing.value);
      SortedMembers(h.listing.value);
      RoundLedger(deq, h.env, Sorted(h.listing.value), kept, quantum, x);
    }
  }

  function Others(clients: seq<string>, c: string): nat {
    if clients == [] then 0 else (if clients[0] == c then 0 else 1) + Others(clients[1..], c)
  }

  lemma {:induction false} OthersCount(clients: seq<string>, c: string)
    requires Distinct(clients)
    ensures Others(clients, c) == |clients| - (if c in clients then 1 else 0)
  {
    if clients != [] {
      OthersCount(clients[1..], c);
      assert clients == [clients[0]] + clients[1..];
    }
  }

  /** The credit of all these clients but one. */
  function CreditOf(clients: seq<string>, deficits: map<string, int>, c: string): int {
    if clients == [] then 0
    else (if clients[0] == c then 0 else Deficit(deficits, clients[0])) + CreditOf(clients[1..], deficits, c)
  }

  lemma {:induction false} LessCredit(clients: seq<string>, a: map<string, int>, b: map<string, int>, c: string)
    requires forall x | x in clients :: Deficit(a, x) <= Deficit(b, x)
    ensures CreditOf(clients, a, c) <= CreditOf(clients, b, c)
  {
    if clients != [] {
      assert clients[0] in clients;
      LessCredit(clients[1..], a, b, c);
    }
  }

  lemma TurnIsBounded<E(!new)>(deq: Dequeue<E>, e: E, clients: seq<string>, deficits: map<string, int>, quantum: int, c: string)
    requires ErrorFree(deq) && quantum >= 1 && NonNegative(deficits) && clients != []
    ensures var x := clients[0];
            var t := Turn(deq, e, x, Deficit(deficits, x) + quantum);
            && t.goOn && t.deficit == 0 && |t.sent| <= Deficit(deficits, x) + quantum
            && NonNegative(deficits[x := 0]) && CreditOf(clients[1..], deficits[x := 0], c) <= CreditOf(clients[1..], deficits, c)
  {
    var x := clients[0];
    TurnLedger(deq, e, x, Deficit(deficits, x) + quantum);
    TurnSpendsAll(deq, e, x, Deficit(deficits, x) + quantum);
    LessCredit(clients[1..], deficits[x := 0], deficits, c);
  }

  /** What a dispatch log holds of the others. */
  function SentToOthers(log: seq<Dispatch>, c: string): int {
    |log| - Sent(log, c)
  }

  lemma RoundSentToOthers<E>(deq: Dequeue<E>, e: E, clients: seq<string>, deficits: map<string, int>, quantum: int, c: string)
    requires clients != []
    ensures var x := clients[0];
            var t := Turn(deq, e, x, Deficit(deficits, x) + quantum);
            SentToOthers(Round(deq, e, clients, deficits, quantum).log, c) ==
              (if c == x then 0 else |t.sent|) + SentToOthers(Rest(deq, e, clients, deficits, quantum).log, c)
  {
    RoundParts(deq, e, clients, deficits, quantum);
    RoundSent(deq, e, clients, deficits, quantum, c);
  }

  lemma {:induction false} RoundOthers<E(!new)>(deq: Dequeue<E>, e: E, clients: seq<string>, deficits: map<string, int>,
                                                quantum: int, c: string)
    requires ErrorFree(deq) && quantum >= 1 && NonNegative(deficits)
    ensures SentToOthers(Round(deq, e, clients, deficits, quantum).log, c) <= quantum * Others(clients, c) + CreditOf(clients, deficits, c)
    decreases |clients|
  {
    if clients != [] {
      var x := clients[0];
      var t := Turn(deq, e, x, Deficit(deficits, x) + quantum);
      TurnIsBounded(deq, e, clients, deficits, quantum, c);
      RoundOthers(deq, t.env, clients[1..], deficits[x := 0], quantum, c);
      RoundSentToOthers(deq, e, clients, deficits, quantum, c);
      RestGoesOn(deq, e, clients, deficits, quantum);
      OneMore(quantum, Others(clients[1..], c));
    }
  }

  /** Every pass lists this client, and at most this many in all. */
  ghost predicate AtMostActive<E>(h: History<E>, c: string, active: nat) {
    h.Then? ==> AtMostActive(h.before, c, active) && Listed(h.listing, c) && |h.listing.value| <= active
  }

  lemma PassOthers<E(!new)>(deq: Dequeue<E>, quantum: int, h: History<E>, c: string, active: nat)
    requires ErrorFree(deq) && quantum >= 1 && WellListed(h) && h.Then?
    requires Listed(h.listing, c) && 1 <= |h.listing.value| <= active
    ensures SentToOthers(Latest(deq, quantum, h).log, c) <=
              quantum * (active - 1) + CreditOf(Sorted(h.listing.value), After(deq, quantum, h.before), c)
  {
    var clients, deficits := Sorted(h.listing.value), After(deq, quantum, h.before);
    AfterNonNegative(deq, quantum, h.before);
    SortedMembers(h.listing.value);
    OthersCount(clients, c);
    RoundOthers(deq, h.env, clients, Kept(deficits, h.listing.value), quantum, c);
    LessCredit(clients, Kept(deficits, h.listing.value), deficits, c);
    Grows(quantum, Others(clients, c), active - 1);
  }

  lemma Grows(quantum: int, a: int, b: int)
    requires quantum >= 1 && a <= b
    ensures quantum * a <= quantum * b
  {
  }

  lemma {:induction false} NoCredit(clients: seq<string>, deficits: map<string, int>, c: string)
    requires AllZero(deficits)
    ensures CreditOf(clients, deficits, c) == 0
  {
    if clients != [] { NoCredit(clients[1..], deficits, c); }
  }

  /** The clients of the first pass, in the order of their turns. */
  function FirstListed<E>(h: History<E>): seq<string> {
    if h.NoPass? then []
    else if h.before.Then? then FirstListed(h.before)
    else if h.listing.Some? then Sorted(h.listing.value) else []
  }

  /** All the other clients together get at most quantum * (active - 1) tasks a pass while this one is
      being served, and, once, the credit that those of them who are listed first started with. */
  lemma {:induction false} OthersTogether<E(!new)>(deq: Dequeue<E>, quantum: int, h: History<E>, c: string, active: nat)
    requires ErrorFree(deq) && quantum >= 1 && WellListed(h) && AtMostActive(h, c, active) && active >= 1
    ensures SentToOthers(AllSent(deq, quantum, h), c) <= quantum * (active - 1) * Passes(h) + CreditOf(FirstListed(h), Start(h), c)
  {
    if h.Then? {
      OthersTogether(deq, quantum, h.before, c, active);
      PassOthers(deq, quantum, h, c, active);
      if h.before.Then? {
        NoCreditCarried(deq, quantum, h.before);
        NoCredit(Sorted(h.listing.value), After(deq, quantum, h.before), c);
      }
      SentConcat(AllSent(deq, quantum, h.before), Latest(deq, quantum, h).log, c);
      OneMore(quantum * (active - 1), Passes(h.before));
    }
  }
}
