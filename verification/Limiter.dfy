/** The sliding-window-log rate limiter, for one client's key: a sorted set of admitted tokens by
    timestamp, pruned on every call and expiring when idle. */
module Limiters {
  import opened Tasks

  /** A member of the sorted set. A unit call adds its own member, index 0; a batch adds 1..n. */
  datatype Member = Member(base: nat, index: nat)

  type Scores = map<Member, int>

  /** A key that has passed its expiry time is gone. */
  function Present(scores: Scores, expiry: Option<int>, clock: int): Scores {
    if expiry.Some? && expiry.value < clock then map[] else scores
  }

  /** ZREMRANGEBYSCORE key 0 (now - window). */
  function Pruned(scores: Scores, now: int, window: int): Scores {
    map m | m in scores && !(0 <= scores[m] <= now - window) :: scores[m]
  }

  function Batch(base: nat, n: nat): set<Member> {
    set i: nat | 1 <= i <= n :: Member(base, i)
  }

  function Stamped(ms: set<Member>, now: int): Scores {
    map m | m in ms :: now
  }

  ghost predicate Unused(scores: Scores, base: nat) {
    forall m | m in scores :: m.base != base
  }

  /** A call: when it reaches the server, what time its caller thinks it is, its unique base, and
      how many tokens it asks for. */
  datatype Call = Call(clock: int, now: int, base: nat, n: nat, unit: bool)

  function Tokens(c: Call): set<Member> {
    if c.unit then {Member(c.base, 0)} else Batch(c.base, c.n)
  }

  datatype Decision = Decision(admitted: bool, remaining: int, scores: Scores, expiry: Option<int>)

  function Decide(scores: Scores, expiry: Option<int>, max: int, window: int, c: Call): Decision {
    var live := Pruned(Present(scores, expiry, c.clock), c.now, window);
    if |live| + c.n <= max then Decision(true, max - |live| - c.n, live + Stamped(Tokens(c), c.now), Some(c.clock + window))
    else Decision(false, 0, live, expiry)
  }

  class Limiter {
    const max: int
    const window: int
    var scores: Scores
    var expiry: Option<int>

    constructor (limit: int, window: int)
      ensures this.max == (if limit < 1 then 1 else limit) && this.window == window
      ensures scores == map[] && expiry == None
    {
      this.max := if limit < 1 then 1 else limit;
      this.window := window;
      scores, expiry := map[], None;
    }

    /** What is left in the set when a call with this timestamp has pruned it: nothing, if the key has
        expired. `now` is the caller's clock, `clock` the server's. */
    ghost function Live(now: int, clock: int): (live: Scores)
      reads this
      ensures forall m :: m in live <==>
                m in scores && (expiry.Some? ==> clock <= expiry.value) && (scores[m] < 0 || now - window < scores[m])
      ensures forall m | m in live :: live[m] == scores[m]
    {
      Pruned(Present(scores, expiry, clock), now, window)
    }

    method Prune(now: int, clock: int)
      modifies this
      ensures scores == old(Live(now, clock)) && expiry == old(expiry)
    {
      scores := Pruned(Present(scores, expiry, clock), now, window);
    }

    /** slidingWindowScript: the remaining allowance, or -1. */
    method SlidingWindowScript(now: int, clock: int, member: Member) returns (res: int)
      modifies this
      ensures var live := old(Live(now, clock));
              if |live| < max then
                res == max - |live| - 1 && scores == live + Stamped({member}, now) && expiry == Some(clock + window)
              else
                res == -1 && scores == live && expiry == old(expiry)
    {
      Prune(now, clock);
      ghost var live := scores;
      var count := |scores|;
      if count < max {
        scores := scores[member := now];
        StampOne(live, member, now);
        expiry := Some(clock + window);
        return max - count - 1;
      }
      return -1;
    }

    /** allowNScript: all of the n tokens, or none. */
    method AllowNScript(now: int, clock: int, base: nat, n: nat) returns (res: int)
      modifies this
      ensures var live := old(Live(now, clock));
              if |live| + n <= max then
                res == max - |live| - n && scores == live + Stamped(Batch(base, n), now) && expiry == Some(clock + window)
              else
                res == -1 && scores == live && expiry == old(expiry)
    {
      Prune(now, clock);
      var count := |scores|;
      if count + n <= max {
        AddBatch(now, base, n);
        expiry := Some(clock + window);
        return max - count - n;
      }
      return -1;
    }

    /** Admits one request if there are fewer than max in the window. */
    method Allow(now: int, clock: int, base: nat) returns (allowed: bool, remaining: int)
      modifies this
      ensures var d := Decide(old(scores), old(expiry), max, window, Call(clock, now, base, 1, true));
              allowed == d.admitted && remaining == d.remaining && scores == d.scores && expiry == d.expiry
      ensures max >= 1 && old(expiry).Some? && old(expiry).value < clock ==>
                allowed && remaining == max - 1 && scores == map[Member(base, 0) := now] && expiry == Some(clock + window)
    {
      ghost var c := Call(clock, now, base, 1, true);
      DecideIs(scores, expiry, max, window, c, Live(now, clock), {Member(base, 0)});
      var res := SlidingWindowScript(now, clock, Member(base, 0));
      if res < 0 {
        return false, 0;
      }
      return true, res;
    }

    /** Admits a batch of n, or nothing of it. A batch of fewer than one counts as one. */
    method AllowN(now: int, clock: int, base: nat, size: int) returns (allowed: bool, remaining: int)
      modifies this
      ensures var n := if size < 1 then 1 else size;
              var d := Decide(old(scores), old(expiry), max, window, Call(clock, now, base, n, false));
              allowed == d.admitted && remaining == d.remaining && scores == d.scores && expiry == d.expiry
      ensures var n := if size < 1 then 1 else size;
              old(expiry).Some? && old(expiry).value < clock ==>
                && (allowed <==> n <= max)
                && (allowed ==> remaining == max - n && scores == Stamped(Batch(base, n), now) && expiry == Some(clock + window))
    {
      var n := if size < 1 then 1 else size;
      ghost var c := Call(clock, now, base, n, false);
      DecideIs(scores, expiry, max, window, c, Live(now, clock), Batch(base, n));
      var res := AllowNScript(now, clock, base, n);
      if res < 0 {
        return false, 0;
      }
      return true, res;
    }

    /** The loop of ZADDs. */
    method AddBatch(now: int, base: nat, n: nat)
      modifies this`scores
      ensures scores == old(scores) + Stamped(Batch(base, n), now)
    {
      for i := 1 to n + 1
        invariant scores == old(scores) + Stamped(Batch(base, i - 1), now)
      {
        BatchGrows(base, i);
        StampMore(old(scores), Batch(base, i - 1), Member(base, i), now);
        scores := scores[Member(base, i) := now];
      }
    }
  }

  lemma StampOne(scores: Scores, m: Member, now: int)
    ensures scores[m := now] == scores + Stamped({m}, now)
  {
  }

  lemma StampMore(scores: Scores, ms: set<Member>, m: Member, now: int)
    ensures (scores + Stamped(ms, now))[m := now] == scores + Stamped(ms + {m}, now)
  {
  }

  lemma DecideIs(scores: Scores, expiry: Option<int>, max: int, window: int, c: Call, live: Scores, ms: set<Member>)
    requires live == Pruned(Present(scores, expiry, c.clock), c.now, window) && ms == Tokens(c)
    ensures Decide(scores, expiry, max, window, c) ==
              if |live| + c.n <= max then Decision(true, max - |live| - c.n, live + Stamped(ms, c.now), Some(c.clock + window))
              else Decision(false, 0, live, expiry)
  {
  }

  lemma BatchGrows(base: nat, i: nat)
    requires i >= 1
    ensures Batch(base, i) == Batch(base, i - 1) + {Member(base, i)}
  {
  }

  lemma {:induction false} BatchSize(base: nat, n: nat)
    ensures |Batch(base, n)| == n
  {
    if n == 0 {
      assert Batch(base, 0) == {};
    } else {
      BatchSize(base, n - 1);
      BatchGrows(base, n);
      assert Member(base, n) !in Batch(base, n - 1);
    }
  }

  /** Tokens of a set are stamped once each. */
  lemma AddFresh(scores: Scores, ms: set<Member>, now: int)
    requires scores.Keys !! ms
    ensures (scores + Stamped(ms, now)).Keys == scores.Keys + ms && |scores + Stamped(ms, now)| == |scores| + |ms|
  {
    var sum := scores + Stamped(ms, now);
    assert sum.Keys == scores.Keys + ms;
    assert |sum| == |sum.Keys| && |scores| == |scores.Keys|;
    assert |scores.Keys + ms| == |scores.Keys| + |ms|;
  }

  // ---------------------------------------------------------------- unit calls and batches

  /** How many tokens carry this timestamp. */
  function At(scores: Scores, s: int): nat {
    |set m | m in scores && scores[m] == s|
  }

  lemma AtAdded(scores: Scores, ms: set<Member>, now: int, s: int)
    requires scores.Keys !! ms
    ensures At(scores + Stamped(ms, now), s) == At(scores, s) + (if s == now then |ms| else 0)
  {
    var sum := scores + Stamped(ms, now);
    var before := set m | m in scores && scores[m] == s;
    var after := set m | m in sum && sum[m] == s;
    if s == now {
      assert after == before + ms;
    } else {
      assert after == before;
    }
  }

  predicate Recent(scores: Scores, now: int, window: int) {
    forall m | m in scores :: !(0 <= scores[m] <= now - window)
  }

  lemma RecentIsKept(scores: Scores, now: int, window: int)
    ensures Recent(Pruned(scores, now, window), now, window)
    ensures Recent(scores, now, window) ==> Pruned(scores, now, window) == scores
  {
  }

  lemma StampedIsRecent(scores: Scores, ms: set<Member>, now: int, window: int)
    requires window > 0 && Recent(scores, now, window)
    ensures Recent(scores + Stamped(ms, now), now, window)
  {
  }

  lemma StampTwice(scores: Scores, ms: set<Member>, ns: set<Member>, now: int)
    ensures scores + Stamped(ms, now) + Stamped(ns, now) == scores + Stamped(ms + ns, now)
  {
  }

  function Unit(clock: int, now: int, base: nat): Call {
    Call(clock, now, base, 1, true)
  }

  /** Unit calls at the same instant, one for each base: whether all were admitted, and what the last
      one was told and left behind. */
  function Units(scores: Scores, expiry: Option<int>, max: int, window: int, clock: int, now: int, bases: seq<nat>): Decision
    requires bases != []
  {
    var last := Unit(clock, now, bases[|bases| - 1]);
    if |bases| == 1 then Decide(scores, expiry, max, window, last)
    else
      var d := Units(scores, expiry, max, window, clock, now, bases[..|bases| - 1]);
      var d' := Decide(d.scores, d.expiry, max, window, last);
      d'.(admitted := d.admitted && d'.admitted)
  }

  ghost predicate FreshBases(scores: Scores, bases: seq<nat>) {
    && (forall i | 0 <= i < |bases| :: Unused(scores, bases[i]))
    && (forall i, j | 0 <= i < j < |bases| :: bases[i] != bases[j])
  }

  function Singles(bases: seq<nat>): set<Member> {
    set i | 0 <= i < |bases| :: Member(bases[i], 0)
  }

  lemma SinglesGrow(bases: seq<nat>)
    requires bases != [] && forall i, j | 0 <= i < j < |bases| :: bases[i] != bases[j]
    ensures var init, last := bases[..|bases| - 1], bases[|bases| - 1];
            Singles(bases) == Singles(init) + {Member(last, 0)} && Member(last, 0) !in Singles(init)
  {
    var init, last := bases[..|bases| - 1], bases[|bases| - 1];
    forall m ensures m in Singles(bases) <==> m in Singles(init) + {Member(last, 0)} {
      if m in Singles(bases) {
        var i :| 0 <= i < |bases| && m == Member(bases[i], 0);
        assert i < |init| ==> init[i] == bases[i];
      }
      if m in Singles(init) {
        var i :| 0 <= i < |init| && m == Member(init[i], 0);
        assert bases[i] == init[i];
      }
    }
  }

  /** What unit calls have done to the live set so far. */
  ghost predicate UnitsOk(live: Scores, expiry: Option<int>, max: int, window: int, clock: int, now: int, bases: seq<nat>, d: Decision) {
    && |Singles(bases)| == |bases| && live.Keys !! Singles(bases)
    && (d.admitted <==> |live| + |bases| <= max)
    && (d.admitted ==> d.scores == live + Stamped(Singles(bases), now) && d.remaining == max - |live| - |bases|)
    && (!d.admitted ==> d.remaining == 0 && |d.scores| >= max)
    && Recent(d.scores, now, window) && |live| <= |d.scores|
    && (d.expiry == Some(clock + window) || (d.expiry == expiry && !d.admitted && d.scores == live))
  }

  lemma SinglesFresh(scores: Scores, bases: seq<nat>)
    requires FreshBases(scores, bases)
    ensures scores.Keys !! Singles(bases)
  {
    forall i | 0 <= i < |bases| ensures Member(bases[i], 0) !in scores {
      assert Unused(scores, bases[i]);
    }
  }

  lemma UnitAdmitted(live: Scores, window: int, now: int, bases: seq<nat>, s: Scores)
    requires window > 0 && bases != [] && forall i, j | 0 <= i < j < |bases| :: bases[i] != bases[j]
    requires live.Keys !! Singles(bases)
    requires Recent(s, now, window) && s == live + Stamped(Singles(bases[..|bases| - 1]), now)
    ensures var s' := s + Stamped({Member(bases[|bases| - 1], 0)}, now);
            s' == live + Stamped(Singles(bases), now) && Recent(s', now, window) && |s'| == |live| + |Singles(bases)|
  {
    var m := Member(bases[|bases| - 1], 0);
    SinglesGrow(bases);
    StampTwice(live, Singles(bases[..|bases| - 1]), {m}, now);
    AddFresh(live, Singles(bases), now);
    StampedIsRecent(s, {m}, now, window);
  }

  lemma UnitSize(live: Scores, now: int, bases: seq<nat>)
    requires bases != [] && forall i, j | 0 <= i < j < |bases| :: bases[i] != bases[j]
    requires live.Keys !! Singles(bases) && |Singles(bases[..|bases| - 1])| == |bases| - 1
    ensures |Singles(bases)| == |bases| && live.Keys !! Singles(bases[..|bases| - 1])
    ensures |live + Stamped(Singles(bases[..|bases| - 1]), now)| == |live| + |bases| - 1
  {
    SinglesGrow(bases);
    AddFresh(live, Singles(bases[..|bases| - 1]), now);
  }

  /** A further call at the same instant finds what the one before left. */
  lemma NothingExpires(d: Decision, live: Scores, expiry: Option<int>, window: int, clock: int, now: int)
    requires window > 0 && Recent(d.scores, now, window)
    requires d.expiry == Some(clock + window) || (d.expiry == expiry && d.scores == live)
    requires expiry.Some? && expiry.value < clock ==> live == map[]
    ensures Pruned(Present(d.scores, d.expiry, clock), now, window) == d.scores
  {
    RecentIsKept(d.scores, now, window);
  }

  lemma DecideUnit(scores: Scores, expiry: Option<int>, max: int, window: int, clock: int, now: int, base: nat, live: Scores)
    requires live == Pruned(Present(scores, expiry, clock), now, window)
    ensures Decide(scores, expiry, max, window, Unit(clock, now, base)) ==
              if |live| + 1 <= max then Decision(true, max - |live| - 1, live + Stamped({Member(base, 0)}, now), Some(clock + window))
              else Decision(false, 0, live, expiry)
  {
    DecideIs(scores, expiry, max, window, Unit(clock, now, base), live, {Member(base, 0)});
  }

  lemma UnitStep(live: Scores, expiry: Option<int>, max: int, window: int, clock: int, now: int, bases: seq<nat>, d: Decision)
    requires window > 0 && |bases| > 1 && forall i, j | 0 <= i < j < |bases| :: bases[i] != bases[j]
    requires live.Keys !! Singles(bases) && UnitsOk(live, expiry, max, window, clock, now, bases[..|bases| - 1], d)
    requires expiry.Some? && expiry.value < clock ==> live == map[]
    ensures var d' := Decide(d.scores, d.expiry, max, window, Unit(clock, now, bases[|bases| - 1]));
            UnitsOk(live, expiry, max, window, clock, now, bases, d'.(admitted := d.admitted && d'.admitted))
  {
    NothingExpires(d, live, expiry, window, clock, now);
    DecideUnit(d.scores, d.expiry, max, window, clock, now, bases[|bases| - 1], d.scores);
    UnitSize(live, now, bases);
    if d.admitted && |d.scores| + 1 <= max {
      UnitAdmitted(live, window, now, bases, d.scores);
    }
  }

  lemma FirstUnit(live: Scores, expiry: Option<int>, max: int, window: int, clock: int, now: int, base: nat, d: Decision)
    requires window > 0 && Recent(live, now, window) && Member(base, 0) !in live
    requires d == if |live| + 1 <= max then Decision(true, max - |live| - 1, live + Stamped({Member(base, 0)}, now), Some(clock + window))
                  else Decision(false, 0, live, expiry)
    ensures UnitsOk(live, expiry, max, window, clock, now, [base], d)
  {
    assert Singles([base]) == {Member([base][0], 0)};
    AddFresh(live, {Member(base, 0)}, now);
    StampedIsRecent(live, {Member(base, 0)}, now, window);
  }

  lemma {:induction false} UnitsRun(scores: Scores, expiry: Option<int>, max: int, window: int, clock: int, now: int, bases: seq<nat>, live: Scores)
    requires window > 0 && bases != [] && FreshBases(scores, bases) && live == Pruned(Present(scores, expiry, clock), now, window)
    ensures UnitsOk(live, expiry, max, window, clock, now, bases, Units(scores, expiry, max, window, clock, now, bases))
    decreases |bases|
  {
    assert forall m | m in live :: m in scores;
    SinglesFresh(scores, bases);
    RecentIsKept(Present(scores, expiry, clock), now, window);
    if |bases| == 1 {
      assert bases == [bases[0]] && Unused(scores, bases[0]);
      DecideUnit(scores, expiry, max, window, clock, now, bases[0], live);
      FirstUnit(live, expiry, max, window, clock, now, bases[0], Units(scores, expiry, max, window, clock, now, bases));
    } else {
      UnitsRun(scores, expiry, max, window, clock, now, bases[..|bases| - 1], live);
      UnitStep(live, expiry, max, window, clock, now, bases, Units(scores, expiry, max, window, clock, now, bases[..|bases| - 1]));
    }
  }

  /** AllowN of n answers as the last of n calls of Allow at the same instant would: it is admitted
      exactly when all of them are, is told the same remaining allowance, and, when admitted, leaves
      the same timestamps and the same expiry behind. */
  lemma BatchIsUnits(scores: Scores, expiry: Option<int>, max: int, window: int, batch: Call, bases: seq<nat>)
    requires window > 0 && !batch.unit && batch.n == |bases| >= 1 && FreshBases(scores, bases) && Unused(scores, batch.base)
    ensures var all := Decide(scores, expiry, max, window, batch);
            var units := Units(scores, expiry, max, window, batch.clock, batch.now, bases);
            && all.admitted == units.admitted && all.remaining == units.remaining
            && (all.admitted ==> all.expiry == units.expiry && forall s :: At(all.scores, s) == At(units.scores, s))
  {
    var live := Pruned(Present(scores, expiry, batch.clock), batch.now, window);
    UnitsRun(scores, expiry, max, window, batch.clock, batch.now, bases, live);
    BatchFresh(scores, expiry, window, batch, live);
    DecideIs(scores, expiry, max, window, batch, live, Tokens(batch));
    BatchAgrees(live, expiry, max, window, batch, bases, Units(scores, expiry, max, window, batch.clock, batch.now, bases),
                Tokens(batch), Decide(scores, expiry, max, window, batch));
  }

  lemma BatchFresh(scores: Scores, expiry: Option<int>, window: int, batch: Call, live: Scores)
    requires !batch.unit && Unused(scores, batch.base) && live == Pruned(Present(scores, expiry, batch.clock), batch.now, window)
    ensures live.Keys !! Tokens(batch) && |Tokens(batch)| == batch.n
  {
    BatchSize(batch.base, batch.n);
  }

  lemma BatchAgrees(live: Scores, expiry: Option<int>, max: int, window: int, batch: Call, bases: seq<nat>, units: Decision,
                    ms: set<Member>, all: Decision)
    requires UnitsOk(live, expiry, max, window, batch.clock, batch.now, bases, units) && bases != []
    requires live.Keys !! ms && |ms| == batch.n == |bases|
    requires all == if |live| + batch.n <= max
                    then Decision(true, max - |live| - batch.n, live + Stamped(ms, batch.now), Some(batch.clock + window))
                    else Decision(false, 0, live, expiry)
    ensures all.admitted == units.admitted && all.remaining == units.remaining
    ensures all.admitted ==> all.expiry == units.expiry && forall s :: At(all.scores, s) == At(units.scores, s)
  {
    SameTimes(live, ms, Singles(bases), batch.now);
  }

  lemma SameTimes(live: Scores, ms: set<Member>, ns: set<Member>, now: int)
    requires live.Keys !! ms && live.Keys !! ns && |ms| == |ns|
    ensures forall s :: At(live + Stamped(ms, now), s) == At(live + Stamped(ns, now), s)
  {
    forall s ensures At(live + Stamped(ms, now), s) == At(live + Stamped(ns, now), s) {
      AtAdded(live, ms, now, s);
      AtAdded(live, ns, now, s);
    }
  }

  lemma PrunedUnused(scores: Scores, expiry: Option<int>, clock: int, now: int, window: int, base: nat)
    requires Unused(scores, base)
    ensures Pruned(Present(scores, expiry, clock), now, window).Keys !! {Member(base, 0)}
    ensures Pruned(Present(scores, expiry, clock), now, window).Keys !! Batch(base, 1)
  {
  }

  /** Allow is AllowN of one: same answer, same remaining allowance, same timestamps, same expiry. */
  lemma AllowIsAllowOne(scores: Scores, expiry: Option<int>, max: int, window: int, clock: int, now: int, base: nat)
    requires Unused(scores, base)
    ensures var a := Decide(scores, expiry, max, window, Call(clock, now, base, 1, true));
            var b := Decide(scores, expiry, max, window, Call(clock, now, base, 1, false));
            a.admitted == b.admitted && a.remaining == b.remaining && a.expiry == b.expiry && forall s :: At(a.scores, s) == At(b.scores, s)
  {
    var live := Pruned(Present(scores, expiry, clock), now, window);
    BatchSize(base, 1);
    PrunedUnused(scores, expiry, clock, now, window, base);
    DecideIs(scores, expiry, max, window, Call(clock, now, base, 1, true), live, {Member(base, 0)});
    DecideIs(scores, expiry, max, window, Call(clock, now, base, 1, false), live, Batch(base, 1));
    SameTimes(live, {Member(base, 0)}, Batch(base, 1), now);
  }
}
