/** The hub under concurrency: publishers hold the read lock while they visit the registered
    subscribers one by one; subscribing and deleting need the write lock, and no publisher gets the read
    lock while one of them is waiting for it; and a channel is closed after its subscriber was deleted,
    outside any lock. */
module Fanout {
  import opened Hubs

  /** One attempt to send to a channel, whether it went in, and how many events had been read from
      the channel by then. */
  datatype Offer = Offer(pub: nat, event: Event, taken: bool, read: nat)

  datatype Sub = Sub(client: string, buffer: seq<Event>, closed: bool, received: seq<Event>, offers: seq<Offer>)

  /** A call of PublishTaskEvent from when it has the read lock: whom it found registered, and whom
      it has yet to visit. */
  datatype Pub = Pub(event: Event, audience: set<nat>, pending: set<nat>)

  /** What somebody wants the write lock for. */
  datatype Want = Join(id: nat, client: string) | Part(id: nat)

  datatype State = State(
    subs: map<nat, Sub>,     // every subscriber there ever was
    registered: set<nat>,
    leaving: set<nat>,       // deleted, about to be closed
    writers: set<Want>,      // waiting for the write lock
    active: map<nat, Pub>,   // publishers that hold the read lock
    finished: map<nat, Pub>,
    nextPub: nat,
    panicked: bool)

  datatype Label =
    | Ask(want: Want)
    | Subscribe(id: nat, client: string)
    | Delete(id: nat)
    | Close(id: nat)
    | Publish(event: Event)
    | Visit(p: nat, id: nat)
    | Unlock(p: nat)
    | Read(id: nat)

  predicate Enabled(s: State, l: Label) {
    && !s.panicked
    && match l
       case Ask(want) => MayAsk(s, want)
       case Subscribe(id, client) => s.active == map[] && Join(id, client) in s.writers
       case Delete(id) => s.active == map[] && Part(id) in s.writers
       case Close(id) => id in s.leaving && id in s.subs
       case Publish(_) => s.writers == {}
       case Visit(p, id) => p in s.active && id in s.active[p].pending && id in s.subs
       case Unlock(p) => p in s.active && s.active[p].pending == {}
       case Read(id) => id in s.subs && s.subs[id].buffer != []
  }

  /** A new connection; or one that is registered and leaves, once. */
  predicate MayAsk(s: State, want: Want) {
    match want
    case Join(id, _) => id !in s.subs && forall w | w in s.writers && w.Join? :: w.id != id
    case Part(id) => id in s.registered && want !in s.writers
  }

  function Offered(x: Sub, p: nat, e: Event): Sub {
    if |x.buffer| < BUFFER then x.(buffer := x.buffer + [e], offers := x.offers + [Offer(p, e, true, |x.received|)])
    else x.(offers := x.offers + [Offer(p, e, false, |x.received|)])
  }

  function SubAfter(s: State, l: Label, id: nat): Sub
    requires Enabled(s, l) && id in s.subs
  {
    var x := s.subs[id];
    match l
    case Close(i) => if i == id then x.(closed := true) else x
    case Visit(p, i) => if i == id && x.client == s.active[p].event.client then Offered(x, p, s.active[p].event) else x
    case Read(i) => if i == id then x.(buffer := x.buffer[1..], received := x.received + [x.buffer[0]]) else x
    case _ => x
  }

  function SubsAfter(s: State, l: Label): map<nat, Sub>
    requires Enabled(s, l)
  {
    var subs := map id | id in s.subs :: SubAfter(s, l, id);
    if l.Subscribe? then subs[l.id := Sub(l.client, [], false, [], [])] else subs
  }

  function ActiveAfter(s: State, l: Label): map<nat, Pub>
    requires Enabled(s, l)
  {
    match l
    case Publish(e) => s.active[s.nextPub := Pub(e, s.registered, s.registered)]
    case Visit(p, id) => s.active[p := s.active[p].(pending := s.active[p].pending - {id})]
    case Unlock(p) => s.active - {p}
    case _ => s.active
  }

  function WritersAfter(s: State, l: Label): set<Want> {
    match l
    case Ask(want) => s.writers + {want}
    case Subscribe(id, client) => s.writers - {Join(id, client)}
    case Delete(id) => s.writers - {Part(id)}
    case _ => s.writers
  }

  function Apply(s: State, l: Label): State
    requires Enabled(s, l)
  {
    State(
      SubsAfter(s, l),
      if l.Subscribe? then s.registered + {l.id} else if l.Delete? then s.registered - {l.id} else s.registered,
      if l.Delete? then s.leaving + {l.id} else if l.Close? then s.leaving - {l.id} else s.leaving,
      WritersAfter(s, l),
      ActiveAfter(s, l),
      if l.Unlock? then s.finished[l.p := s.active[l.p]] else s.finished,
      if l.Publish? then s.nextPub + 1 else s.nextPub,
      s.panicked || Panics(s, l))
  }

  /** A send on a closed channel, or a second close. */
  predicate Panics(s: State, l: Label)
    requires Enabled(s, l)
  {
    || (l.Visit? && s.subs[l.id].closed && s.subs[l.id].client == s.active[l.p].event.client)
    || (l.Close? && s.subs[l.id].closed)
  }

  const EMPTY := State(map[], {}, {}, {}, map[], map[], 0, false)

  ghost predicate Steps(s: State, l: Label, s': State) {
    Enabled(s, l) && s' == Apply(s, l)
  }

  ghost predicate Run(states: seq<State>, labels: seq<Label>) {
    && |states| == |labels| + 1
    && states[0] == EMPTY
    && forall i {:trigger labels[i]} | 0 <= i < |labels| :: Steps(states[i], labels[i], states[i + 1])
  }

  // ---------------------------------------------------------------- the channels

  /** The events that went in, in the order in which they were sent. */
  function Taken(offers: seq<Offer>): seq<Event> {
    if offers == [] then []
    else Taken(offers[..|offers| - 1]) + (if offers[|offers| - 1].taken then [offers[|offers| - 1].event] else [])
  }

  /** How often this publisher tried. */
  function Tries(offers: seq<Offer>, p: nat): nat {
    if offers == [] then 0
    else Tries(offers[..|offers| - 1], p) + (if offers[|offers| - 1].pub == p then 1 else 0)
  }

  lemma OfferedOne(offers: seq<Offer>, o: Offer, p: nat)
    ensures Taken(offers + [o]) == Taken(offers) + (if o.taken then [o.event] else [])
    ensures Tries(offers + [o], p) == Tries(offers, p) + (if o.pub == p then 1 else 0)
  {
    assert (offers + [o])[..|offers|] == offers;
  }

  /** An offer was taken exactly when fewer than 16 events were waiting to be read. */
  ghost predicate TakenWhenRoom(offers: seq<Offer>) {
    forall i {:trigger offers[i]} | 0 <= i < |offers| ::
      offers[i].taken <==> |Taken(offers[..i])| - offers[i].read < 16
  }

  ghost predicate SubOk(x: Sub) {
    && Taken(x.offers) == x.received + x.buffer
    && |x.buffer| <= BUFFER
    && TakenWhenRoom(x.offers)
    && forall i | 0 <= i < |x.offers| :: x.offers[i].event.client == x.client
  }

  ghost predicate SubsOk(subs: map<nat, Sub>) {
    forall id | id in subs :: SubOk(subs[id])
  }

  lemma OfferedOk(x: Sub, p: nat, e: Event)
    requires SubOk(x) && e.client == x.client
    ensures SubOk(Offered(x, p, e))
  {
    var o := Offer(p, e, |x.buffer| < BUFFER, |x.received|);
    OfferedOne(x.offers, o, p);
    RoomFor(x.offers, o);
    assert Taken(x.offers + [o]) == x.received + (x.buffer + if o.taken then [e] else []);
  }

  lemma RoomFor(offers: seq<Offer>, o: Offer)
    requires TakenWhenRoom(offers) && (o.taken <==> |Taken(offers)| - o.read < 16)
    ensures TakenWhenRoom(offers + [o])
  {
    var offers' := offers + [o];
    forall i {:trigger offers'[i]} | 0 <= i < |offers'| ensures offers'[i].taken <==> |Taken(offers'[..i])| - offers'[i].read < 16 {
      assert offers'[..i] == offers[..i];
      assert offers[..|offers|] == offers;
    }
  }

  lemma ReadOk(x: Sub)
    requires SubOk(x) && x.buffer != []
    ensures SubOk(x.(buffer := x.buffer[1..], received := x.received + [x.buffer[0]]))
  {
    assert x.received + x.buffer == (x.received + [x.buffer[0]]) + x.buffer[1..];
  }

  lemma SubsStep(s: State, l: Label)
    requires SubsOk(s.subs) && Enabled(s, l)
    ensures SubsOk(SubsAfter(s, l))
  {
    forall id | id in s.subs ensures SubOk(SubAfter(s, l, id)) {
      if l.Visit? && l.id == id && s.subs[id].client == s.active[l.p].event.client {
        OfferedOk(s.subs[id], l.p, s.active[l.p].event);
      } else if l.Read? && l.id == id {
        ReadOk(s.subs[id]);
      }
    }
  }

  // ---------------------------------------------------------------- the lock

  /** What the lock protects: a publisher's remaining visits are to open channels. */
  ghost predicate LockOk(s: State) {
    && !s.panicked
    && (forall id | id in s.registered || id in s.leaving :: id in s.subs && !s.subs[id].closed)
    && s.registered !! s.leaving
    && (forall w | w in s.writers :: if w.Join? then w.id !in s.subs else w.id in s.registered)
    && (forall v, w | v in s.writers && w in s.writers && v.Join? && w.Join? && v.id == w.id :: v == w)
    && (forall p | p in s.active :: s.active[p].pending <= s.registered && s.active[p].pending <= s.active[p].audience)
  }

  lemma LockStep(s: State, l: Label)
    requires LockOk(s) && Enabled(s, l)
    ensures LockOk(Apply(s, l))
  {
  }

  // ---------------------------------------------------------------- who is offered what

  /** The tries of one publisher at one subscriber: one, if it found the subscriber registered, and
      has been there, and the event is the subscriber's own client's. */
  predicate TriedRight(x: Sub, id: nat, p: nat, pub: Pub) {
    Tries(x.offers, p) == if id in pub.audience && id !in pub.pending && x.client == pub.event.client then 1 else 0
  }

  ghost predicate TriesOk(s: State) {
    && (forall p | p in s.active :: p < s.nextPub && s.active[p].audience <= s.subs.Keys)
    && (forall p | p in s.finished ::
          p < s.nextPub && p !in s.active && s.finished[p].pending == {} && s.finished[p].audience <= s.subs.Keys)
    && (forall id, p | id in s.subs && p in s.active :: TriedRight(s.subs[id], id, p, s.active[p]))
    && (forall id, p | id in s.subs && p in s.finished :: TriedRight(s.subs[id], id, p, s.finished[p]))
    && (forall id, p | id in s.subs && p >= s.nextPub :: Tries(s.subs[id].offers, p) == 0)
  }

  /** How a step changes the tries of publisher p at an existing subscriber. */
  lemma TriesChange(s: State, l: Label, id: nat, p: nat)
    requires Enabled(s, l) && id in s.subs
    ensures var x, x' := s.subs[id], SubAfter(s, l, id);
            && x'.client == x.client
            && Tries(x'.offers, p) == Tries(x.offers, p) +
                 (if l == Visit(p, id) && x.client == s.active[p].event.client then 1 else 0)
  {
    if l.Visit? && l.id == id && s.subs[id].client == s.active[l.p].event.client {
      var x, e := s.subs[id], s.active[l.p].event;
      OfferedOne(x.offers, Offer(l.p, e, |x.buffer| < BUFFER, |x.received|), p);
    }
  }

  lemma ActiveTries(s: State, l: Label, id: nat, p: nat)
    requires TriesOk(s) && LockOk(s) && Enabled(s, l) && id in s.subs && p in ActiveAfter(s, l)
    ensures TriedRight(SubAfter(s, l, id), id, p, ActiveAfter(s, l)[p])
  {
    TriesChange(s, l, id, p);
    if !(l.Publish? && p == s.nextPub) {
      assert p in s.active && TriedRight(s.subs[id], id, p, s.active[p]);
    }
  }

  lemma NewSubTries(s: State, l: Label)
    requires TriesOk(s) && LockOk(s) && Enabled(s, l) && l.Subscribe?
    ensures s.active == map[]
    ensures forall p | p in s.finished :: TriedRight(Sub(l.client, [], false, [], []), l.id, p, s.finished[p])
  {
    forall p | p in s.finished ensures l.id !in s.finished[p].audience {
      assert s.finished[p].audience <= s.subs.Keys;
    }
  }

  lemma ActiveStep(s: State, l: Label)
    requires TriesOk(s) && LockOk(s) && Enabled(s, l)
    ensures forall id, p | id in SubsAfter(s, l) && p in ActiveAfter(s, l) :: TriedRight(SubsAfter(s, l)[id], id, p, ActiveAfter(s, l)[p])
  {
    forall id, p | id in SubsAfter(s, l) && p in ActiveAfter(s, l)
      ensures TriedRight(SubsAfter(s, l)[id], id, p, ActiveAfter(s, l)[p])
    {
      if id in s.subs {
        ActiveTries(s, l, id, p);
      }
    }
  }

  lemma FinishedStep(s: State, l: Label, id: nat, p: nat)
    requires TriesOk(s) && LockOk(s) && Enabled(s, l) && id in SubsAfter(s, l)
    requires p in s.finished || (l.Unlock? && p == l.p)
    ensures TriedRight(SubsAfter(s, l)[id], id, p, if l.Unlock? && p == l.p then s.active[p] else s.finished[p])
  {
    if id in s.subs {
      TriesChange(s, l, id, p);
    } else {
      NewSubTries(s, l);
    }
  }

  lemma FutureStep(s: State, l: Label, id: nat, p: nat)
    requires TriesOk(s) && Enabled(s, l) && id in SubsAfter(s, l) && p >= (if l.Publish? then s.nextPub + 1 else s.nextPub)
    ensures Tries(SubsAfter(s, l)[id].offers, p) == 0
  {
    if id in s.subs {
      TriesChange(s, l, id, p);
    }
  }

  lemma PubsStep(s: State, l: Label)
    requires TriesOk(s) && LockOk(s) && Enabled(s, l)
    ensures var s' := Apply(s, l);
            && (forall p | p in s'.active :: p < s'.nextPub && s'.active[p].audience <= s'.subs.Keys)
            && (forall p | p in s'.finished ::
                  p < s'.nextPub && p !in s'.active && s'.finished[p].pending == {} && s'.finished[p].audience <= s'.subs.Keys)
  {
    assert s.subs.Keys <= SubsAfter(s, l).Keys;
    assert s.registered <= s.subs.Keys;
  }

  lemma TriesStep(s: State, l: Label)
    requires TriesOk(s) && LockOk(s) && Enabled(s, l)
    ensures TriesOk(Apply(s, l))
  {
    var s' := Apply(s, l);
    PubsStep(s, l);
    ActiveStep(s, l);
    forall id, p | id in s'.subs && p in s'.finished ensures TriedRight(s'.subs[id], id, p, s'.finished[p]) {
      FinishedStep(s, l, id, p);
    }
    forall id, p | id in s'.subs && p >= s'.nextPub ensures Tries(s'.subs[id].offers, p) == 0 {
      FutureStep(s, l, id, p);
    }
  }

  // ---------------------------------------------------------------- whose event it is

  /** The offer carries the event of the publisher that made it. */
  predicate OwnEvent(s: State, o: Offer) {
    || (o.pub in s.active && o.event == s.active[o.pub].event)
    || (o.pub in s.finished && o.event == s.finished[o.pub].event)
  }

  ghost predicate OffersTrue(s: State) {
    forall id, k | id in s.subs && 0 <= k < |s.subs[id].offers| :: OwnEvent(s, s.subs[id].offers[k])
  }

  lemma OwnEventStays(s: State, l: Label, o: Offer)
    requires TriesOk(s) && Enabled(s, l) && OwnEvent(s, o)
    ensures OwnEvent(Apply(s, l), o)
  {
  }

  lemma OffersAfter(s: State, l: Label, id: nat, k: nat)
    requires Enabled(s, l) && id in s.subs && k < |SubAfter(s, l, id).offers|
    ensures if k < |s.subs[id].offers| then SubAfter(s, l, id).offers[k] == s.subs[id].offers[k]
            else l.Visit? && SubAfter(s, l, id).offers[k].pub == l.p && SubAfter(s, l, id).offers[k].event == s.active[l.p].event
  {
  }

  lemma OffersStep(s: State, l: Label)
    requires TriesOk(s) && OffersTrue(s) && Enabled(s, l)
    ensures OffersTrue(Apply(s, l))
  {
    var s' := Apply(s, l);
    forall id, k | id in s'.subs && 0 <= k < |s'.subs[id].offers| ensures OwnEvent(s', s'.subs[id].offers[k]) {
      if id in s.subs {
        OffersAfter(s, l, id, k);
        if k < |s.subs[id].offers| {
          OwnEventStays(s, l, s.subs[id].offers[k]);
        }
      }
    }
  }

  /** The places at which publishing began. */
  function Publishes(labels: seq<Label>): seq<nat> {
    if labels == [] then []
    else Publishes(labels[..|labels| - 1]) + (if labels[|labels| - 1].Publish? then [|labels| - 1] else [])
  }

  lemma {:induction false} PublishesAre(labels: seq<Label>)
    ensures forall k: nat :: k in Publishes(labels) <==> k < |labels| && labels[k].Publish?
    ensures forall p, q | 0 <= p < q < |Publishes(labels)| :: Publishes(labels)[p] < Publishes(labels)[q]
  {
    if labels != [] {
      var init := labels[..|labels| - 1];
      PublishesAre(init);
      forall p | 0 <= p < |Publishes(init)| ensures Publishes(init)[p] < |init| {
        assert Publishes(init)[p] in Publishes(init);
      }
    }
  }

  /** Publisher p announces the event of the p-th publish, to those who were registered when it began. */
  ghost predicate IsPublish(pub: Pub, states: seq<State>, labels: seq<Label>, k: nat) {
    k < |labels| && k < |states| && labels[k].Publish? && pub.event == labels[k].event && pub.audience == states[k].registered
  }

  ghost predicate PubsTrue(states: seq<State>, labels: seq<Label>, i: nat)
    requires i < |states| == |labels| + 1
  {
    var s, ks := states[i], Publishes(labels[..i]);
    && s.nextPub == |ks|
    && (forall p | p in s.active :: p < |ks| && IsPublish(s.active[p], states, labels, ks[p]))
    && (forall p | p in s.finished :: p < |ks| && IsPublish(s.finished[p], states, labels, ks[p]))
    && (forall p | 0 <= p < |ks| :: p in s.active || p in s.finished)
  }

  lemma PubsAfter(s: State, l: Label, p: nat)
    requires TriesOk(s) && Enabled(s, l) && (p in Apply(s, l).active || p in Apply(s, l).finished)
    ensures var s' := Apply(s, l);
            var pub := if p in s'.active then s'.active[p] else s'.finished[p];
            if l.Publish? && p == s.nextPub then pub.event == l.event && pub.audience == s.registered
            else (p in s.active && pub.event == s.active[p].event && pub.audience == s.active[p].audience)
                 || (p in s.finished && pub.event == s.finished[p].event && pub.audience == s.finished[p].audience)
  {
  }

  lemma PubsStay(s: State, l: Label, p: nat)
    requires Enabled(s, l)
    ensures p in s.active || p in s.finished || (l.Publish? && p == s.nextPub) ==> p in Apply(s, l).active || p in Apply(s, l).finished
  {
  }

  lemma PubsTrueStep(states: seq<State>, labels: seq<Label>, i: nat)
    requires Run(states, labels) && i < |labels| && TriesOk(states[i]) && PubsTrue(states, labels, i)
    requires TriesOk(states[i + 1])
    ensures PubsTrue(states, labels, i + 1)
  {
    assert Steps(states[i], labels[i], states[i + 1]);
    assert labels[..i + 1][..i] == labels[..i];
    var s', ks := states[i + 1], Publishes(labels[..i + 1]);
    forall p | p in s'.active || p in s'.finished
      ensures p < |ks| && IsPublish(if p in s'.active then s'.active[p] else s'.finished[p], states, labels, ks[p])
    {
      PubsAfter(states[i], labels[i], p);
    }
    forall p | 0 <= p < |ks| ensures p in s'.active || p in s'.finished {
      PubsStay(states[i], labels[i], p);
    }
  }

  lemma {:induction false} HubRun(states: seq<State>, labels: seq<Label>, i: nat)
    requires Run(states, labels) && i < |states|
    ensures SubsOk(states[i].subs) && LockOk(states[i]) && TriesOk(states[i])
    ensures OffersTrue(states[i]) && PubsTrue(states, labels, i)
  {
    if i > 0 {
      HubRun(states, labels, i - 1);
      assert Steps(states[i - 1], labels[i - 1], states[i - 1 + 1]);
      SubsStep(states[i - 1], labels[i - 1]);
      LockStep(states[i - 1], labels[i - 1]);
      TriesStep(states[i - 1], labels[i - 1]);
      OffersStep(states[i - 1], labels[i - 1]);
      PubsTrueStep(states, labels, i - 1);
    }
  }

  // ---------------------------------------------------------------- what it gives

  /** No send ever hits a closed channel, nothing is closed twice, and no publisher ever waits: every
      visit it still has to make, or its unlock, can happen at once. */
  lemma NoPanicNoBlock(states: seq<State>, labels: seq<Label>, i: nat, p: nat)
    requires Run(states, labels) && i < |states|
    ensures !states[i].panicked
    ensures p in states[i].active ==>
              if states[i].active[p].pending == {} then Enabled(states[i], Unlock(p))
              else forall id | id in states[i].active[p].pending :: Enabled(states[i], Visit(p, id)) && !Panics(states[i], Visit(p, id))
  {
    HubRun(states, labels, i);
    var s := states[i];
    if p in s.active {
      forall id | id in s.active[p].pending ensures Enabled(s, Visit(p, id)) && !Panics(s, Visit(p, id)) {
        assert id in s.registered;
      }
    }
  }

  /** A connection is registered, or on its way out, or closed: one of the three. */
  predicate InOnePlace(s: State, id: nat)
    requires id in s.subs
  {
    && (id in s.registered ==> id !in s.leaving && !s.subs[id].closed)
    && (id in s.leaving ==> !s.subs[id].closed)
    && (id in s.registered || id in s.leaving || s.subs[id].closed)
  }

  lemma PlaceStep(s: State, l: Label, id: nat)
    requires LockOk(s) && Enabled(s, l) && id in Apply(s, l).subs && (id in s.subs ==> InOnePlace(s, id))
    ensures InOnePlace(Apply(s, l), id)
    ensures id !in s.subs ==> l == Subscribe(id, Apply(s, l).subs[id].client)
    ensures id in s.subs ==> Apply(s, l).subs[id].client == s.subs[id].client
  {
  }

  /** A connection belongs to the client that subscribed, and is registered until it is deleted and then
      until it is closed on its way out; none is forgotten. */
  lemma {:induction false} ConnectionLives(states: seq<State>, labels: seq<Label>, i: nat, id: nat)
    requires Run(states, labels) && i < |states| && id in states[i].subs
    ensures InOnePlace(states[i], id)
    ensures exists k :: 0 <= k < i && labels[k] == Subscribe(id, states[i].subs[id].client)
  {
    if i > 0 {
      HubRun(states, labels, i - 1);
      assert Steps(states[i - 1], labels[i - 1], states[i - 1 + 1]);
      if id in states[i - 1].subs { ConnectionLives(states, labels, i - 1, id); }
      PlaceStep(states[i - 1], labels[i - 1], id);
      if id in states[i - 1].subs {
        var k :| 0 <= k < i - 1 && labels[k] == Subscribe(id, states[i - 1].subs[id].client);
        assert labels[k] == Subscribe(id, states[i].subs[id].client);
      } else {
        assert labels[i - 1] == Subscribe(id, states[i].subs[id].client);
      }
    }
  }

  /** Publishers share the lock: another can begin exactly when nobody waits to write. Who waits to write
      gets the lock exactly when nobody publishes. Whoever has something to read can read it. */
  lemma WhoGetsTheLock(states: seq<State>, labels: seq<Label>, i: nat, e: Event, id: nat, client: string)
    requires Run(states, labels) && i < |states|
    ensures var s := states[i];
            && (Enabled(s, Publish(e)) <==> s.writers == {})
            && (Enabled(s, Subscribe(id, client)) <==> Join(id, client) in s.writers && s.active.Keys == {})
            && (Enabled(s, Delete(id)) <==> Part(id) in s.writers && s.active.Keys == {})
            && (id in s.subs ==> (Enabled(s, Read(id)) <==> |s.subs[id].buffer| > 0))
            && (id in s.leaving ==> Enabled(s, Close(id)))
  {
    HubRun(states, labels, i);
    LockRules(states[i], e, id, client);
  }

  lemma LockRules(s: State, e: Event, id: nat, client: string)
    requires LockOk(s)
    ensures Enabled(s, Publish(e)) <==> s.writers == {}
    ensures Enabled(s, Subscribe(id, client)) <==> Join(id, client) in s.writers && s.active.Keys == {}
    ensures Enabled(s, Delete(id)) <==> Part(id) in s.writers && s.active.Keys == {}
    ensures id in s.subs ==> (Enabled(s, Read(id)) <==> |s.subs[id].buffer| > 0)
    ensures id in s.leaving ==> Enabled(s, Close(id))
  {
    assert s.active == map[] <==> s.active.Keys == {};
  }

  /** Steps on the way to a free lock. None of them is a subscriber's. */
  predicate FreesLock(l: Label) {
    l.Visit? || l.Unlock? || l.Subscribe? || l.Delete?
  }

  function Visits(s: State): set<(nat, nat)> {
    set p, id | p in s.active && id in s.active[p].pending :: (p, id)
  }

  /** How many such steps are left. */
  function LockWork(s: State): nat {
    |Visits(s)| + |s.active.Keys| + |s.writers|
  }

  lemma VisitsAfter(s: State, l: Label)
    requires LockOk(s) && Enabled(s, l) && !l.Publish?
    ensures Visits(Apply(s, l)) == if l.Visit? then Visits(s) - {(l.p, l.id)} else Visits(s)
    ensures l.Visit? ==> (l.p, l.id) in Visits(s)
  {
    var s' := Apply(s, l);
    forall v ensures v in Visits(s') <==> v in (if l.Visit? then Visits(s) - {(l.p, l.id)} else Visits(s)) {
      assert v == (v.0, v.1);
    }
  }

  lemma ActiveAfterIs(s: State, l: Label)
    requires Enabled(s, l) && !l.Publish?
    ensures ActiveAfter(s, l).Keys == if l.Unlock? then s.active.Keys - {l.p} else s.active.Keys
  {
  }

  lemma Fewer<T>(a: set<T>, x: T)
    requires x in a
    ensures |a - {x}| == |a| - 1
  {
  }

  /** Each such step leaves one fewer, and while somebody waits for the write lock, only another one
      asking for it makes more. */
  lemma LockWorkDescends(s: State, l: Label)
    requires LockOk(s) && Enabled(s, l) && !l.Publish? && !l.Ask?
    ensures LockWork(Apply(s, l)) == LockWork(s) - (if FreesLock(l) then 1 else 0)
  {
    VisitsAfter(s, l);
    ActiveAfterIs(s, l);
    if l.Visit? { Fewer(Visits(s), (l.p, l.id)); }
    if l.Unlock? { Fewer(s.active.Keys, l.p); }
    if l.Subscribe? { Fewer(s.writers, Join(l.id, l.client)); }
    if l.Delete? { Fewer(s.writers, Part(l.id)); }
  }

  lemma LockCanMove(s: State) returns (l: Label)
    requires LockOk(s) && (s.active != map[] || s.writers != {})
    ensures Enabled(s, l) && FreesLock(l) && !Panics(s, l)
  {
    if s.active != map[] {
      var p :| p in s.active;
      if s.active[p].pending == {} {
        l := Unlock(p);
      } else {
        var id :| id in s.active[p].pending;
        assert id in s.registered;
        l := Visit(p, id);
      }
    } else {
      var w :| w in s.writers;
      l := match w case Join(id, client) => Subscribe(id, client) case Part(id) => Delete(id);
    }
  }

  ghost predicate Path(s: State, ls: seq<Label>, s': State)
    decreases |ls|
  {
    if ls == [] then s == s' else Enabled(s, ls[0]) && Path(Apply(s, ls[0]), ls[1..], s')
  }

  /** A publisher that has to wait for the lock waits for nobody who reads: the lock comes free, for
      those who wait to write and then for it, by a known number of steps none of which is a
      subscriber's. */
  lemma {:induction false} LockComesFree(s: State) returns (ls: seq<Label>, s': State)
    requires LockOk(s)
    ensures Path(s, ls, s') && |ls| == LockWork(s) && forall l | l in ls :: FreesLock(l)
    ensures forall e :: Enabled(s', Publish(e))
    decreases LockWork(s)
  {
    if s.active == map[] && s.writers == {} {
      ls, s' := [], s;
      assert Visits(s) == {};
    } else {
      var l := LockCanMove(s);
      LockWorkDescends(s, l);
      LockStep(s, l);
      var rest;
      rest, s' := LockComesFree(Apply(s, l));
      ls := [l] + rest;
      assert ls[1..] == rest;
    }
  }

  /** What a subscriber has read, followed by what waits for it, is the sequence of events sent to its
      channel but for those that found 16 waiting; each is the event of the publish it belongs to, and all
      are its own client's. */
  lemma Delivery(states: seq<State>, labels: seq<Label>, i: nat, id: nat)
    requires Run(states, labels) && i < |states| && id in states[i].subs
    ensures var x, ks := states[i].subs[id], Publishes(labels[..i]);
            && x.received + x.buffer == Taken(x.offers)
            && (forall k | 0 <= k < |x.offers| :: x.offers[k].taken <==> |Taken(x.offers[..k])| - x.offers[k].read < 16)
            && (forall k | 0 <= k < |x.offers| ::
                  && x.offers[k].pub < |ks| && ks[x.offers[k].pub] < |labels| && labels[ks[x.offers[k].pub]] == Publish(x.offers[k].event)
                  && x.offers[k].event.client == x.client)
            && |x.buffer| <= 16
  {
    HubRun(states, labels, i);
    var s := states[i];
    assert SubOk(s.subs[id]);
    forall k | 0 <= k < |s.subs[id].offers|
      ensures var o, ks := s.subs[id].offers[k], Publishes(labels[..i]);
              o.pub < |ks| && ks[o.pub] < |labels| && labels[ks[o.pub]] == Publish(o.event)
    {
      assert OwnEvent(s, s.subs[id].offers[k]);
    }
  }

  /** The n-th publish of a run, once finished, was offered exactly once to each subscriber of its client
      that was registered when it began, and to nobody else. */
  lemma OfferedOnce(states: seq<State>, labels: seq<Label>, i: nat, id: nat, p: nat)
    requires Run(states, labels) && i < |states| && id in states[i].subs && p in states[i].finished
    ensures p < |Publishes(labels[..i])|
    ensures var x, k := states[i].subs[id], Publishes(labels[..i])[p];
            && k < |labels| && labels[k] == Publish(states[i].finished[p].event)
            && Tries(x.offers, p) == if id in states[k].registered && x.client == labels[k].event.client then 1 else 0
  {
    HubRun(states, labels, i);
    assert TriedRight(states[i].subs[id], id, p, states[i].finished[p]);
  }
}
