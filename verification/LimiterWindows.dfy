/** The limiter over whole runs of calls: what it answers, and how many tokens it lets through in
    any interval of real time. */
module LimiterWindows {
  import opened Tasks
  import opened Limiters

  /** A run of calls on one key, latest last. */
  datatype Calls = NoCall | Then(before: Calls, call: Call)

  /** The answer to the latest call, and the key as it leaves it. */
  function Answer(max: int, window: int, h: Calls): Decision {
    if h.NoCall? then Decision(false, 0, map[], None)
    else
      var d := Answer(max, window, h.before);
      Decide(d.scores, d.expiry, max, window, h.call)
  }

  /** Every token ever admitted, with the real time of its admission. Nothing is pruned here. */
  function Granted(max: int, window: int, h: Calls): map<Member, int> {
    if h.NoCall? then map[]
    else if Answer(max, window, h).admitted then Granted(max, window, h.before) + Stamped(Tokens(h.call), h.call.clock)
    else Granted(max, window, h.before)
  }

  function Bases(h: Calls): set<nat> {
    if h.NoCall? then {} else Bases(h.before) + {h.call.base}
  }

  /** Calls reach the server in order, with fresh bases, and no caller's clock is off by more
      than skew. Clocks count from the epoch. */
  ghost predicate WellTimed(h: Calls, skew: int) {
    h.Then? ==>
      && WellTimed(h.before, skew)
      && h.call.n >= 1 && (h.call.unit ==> h.call.n == 1)
      && -skew <= h.call.now - h.call.clock <= skew && h.call.now >= 0
      && (h.before.Then? ==> h.before.call.clock <= h.call.clock)
      && h.call.base !in Bases(h.before)
  }

  lemma TokensOf(c: Call)
    requires c.unit ==> c.n == 1
    ensures |Tokens(c)| == c.n && forall m | m in Tokens(c) :: m.base == c.base
  {
    if !c.unit {
      BatchSize(c.base, c.n);
    }
  }

  /** No member in the set, or in the history, is of a base not used yet. */
  lemma {:induction false} OfBases(max: int, window: int, h: Calls, skew: int)
    requires WellTimed(h, skew)
    ensures forall m | m in Answer(max, window, h).scores || m in Granted(max, window, h) :: m.base in Bases(h)
  {
    if h.Then? {
      OfBases(max, window, h.before, skew);
      TokensOf(h.call);
    }
  }

  function LiveAt(max: int, window: int, h: Calls): Scores
    requires h.Then?
  {
    Pruned(Present(Answer(max, window, h.before).scores, Answer(max, window, h.before).expiry, h.call.clock), h.call.now, window)
  }

  /** What the latest call did, spelled out. */
  lemma Latest(max: int, window: int, h: Calls)
    requires h.Then?
    ensures var live, ms := LiveAt(max, window, h), Tokens(h.call);
            if |live| + h.call.n <= max then
              && Answer(max, window, h) == Decision(true, max - |live| - h.call.n, live + Stamped(ms, h.call.now), Some(h.call.clock + window))
              && Granted(max, window, h) == Granted(max, window, h.before) + Stamped(ms, h.call.clock)
            else
              && Answer(max, window, h) == Decision(false, 0, live, Answer(max, window, h.before).expiry)
              && Granted(max, window, h) == Granted(max, window, h.before)
  {
    DecideIs(Answer(max, window, h.before).scores, Answer(max, window, h.before).expiry, max, window, h.call, LiveAt(max, window, h), Tokens(h.call));
  }

  // ---------------------------------------------------------------- what is still there

  /** A token admitted at time g cannot have been pruned or expired before g + window - 2 * skew. */
  ghost predicate Retains(granted: map<Member, int>, scores: Scores, expiry: Option<int>, t: int, window: int, skew: int) {
    forall m | m in granted ::
      && granted[m] <= t
      && expiry.Some? && granted[m] + window <= expiry.value
      && (t < granted[m] + window - 2 * skew ==> m in scores && granted[m] - skew <= scores[m])
  }

  /** The window bound for one interval, over what has been admitted. */
  function Within(granted: map<Member, int>, a: int, b: int): set<Member> {
    set m | m in granted && a < granted[m] <= b
  }

  /** What was admitted recently enough is live at the next call. */
  lemma RetainedIsLive(granted: map<Member, int>, scores: Scores, expiry: Option<int>, t: int, window: int, skew: int, clock: int, now: int, m: Member)
    requires Retains(granted, scores, expiry, t, window, skew) && t <= clock && -skew <= now - clock <= skew && skew >= 0
    requires m in granted && clock < granted[m] + window - 2 * skew
    ensures var live := Pruned(Present(scores, expiry, clock), now, window); m in live && granted[m] - skew <= live[m]
  {
  }

  lemma {:induction false} Retained(max: int, window: int, h: Calls, skew: int)
    requires WellTimed(h, skew) && skew >= 0 && h.Then?
    ensures Retains(Granted(max, window, h), Answer(max, window, h).scores, Answer(max, window, h).expiry, h.call.clock, window, skew)
  {
    var granted, live := Granted(max, window, h.before), LiveAt(max, window, h);
    Latest(max, window, h);
    OfBases(max, window, h.before, skew);
    TokensOf(h.call);
    if h.before.Then? {
      Retained(max, window, h.before, skew);
      forall m | m in granted && h.call.clock < granted[m] + window - 2 * skew ensures m in live && granted[m] - skew <= live[m] {
        RetainedIsLive(granted, Answer(max, window, h.before).scores, Answer(max, window, h.before).expiry,
                       h.before.call.clock, window, skew, h.call.clock, h.call.now, m);
      }
    }
  }

  // ---------------------------------------------------------------- any window

  /** Tokens granted inside the interval that ends at this call or later are all live at the call. */
  lemma WithinIsLive(max: int, window: int, h: Calls, skew: int, a: int)
    requires WellTimed(h, skew) && skew >= 0 && h.Then? && h.call.clock <= a + window - 2 * skew
    ensures |Within(Granted(max, window, h.before), a, a + window - 2 * skew)| <= |LiveAt(max, window, h)|
  {
    var granted, live := Granted(max, window, h.before), LiveAt(max, window, h);
    var inside := Within(granted, a, a + window - 2 * skew);
    if h.before.Then? {
      Retained(max, window, h.before, skew);
      forall m | m in inside ensures m in live.Keys {
        RetainedIsLive(granted, Answer(max, window, h.before).scores, Answer(max, window, h.before).expiry,
                       h.before.call.clock, window, skew, h.call.clock, h.call.now, m);
      }
    } else {
      assert inside == {};
    }
    SubsetSize(inside, live.Keys);
    assert |live| == |live.Keys|;
  }

  lemma WithinGrows(granted: map<Member, int>, ms: set<Member>, clock: int, a: int, b: int)
    requires granted.Keys !! ms
    ensures |Within(granted + Stamped(ms, clock), a, b)| == |Within(granted, a, b)| + (if a < clock <= b then |ms| else 0)
  {
    var after := Within(granted + Stamped(ms, clock), a, b);
    if a < clock <= b {
      assert after == Within(granted, a, b) + ms;
    } else {
      assert after == Within(granted, a, b);
    }
  }

  lemma FreshTokens(max: int, window: int, h: Calls, skew: int)
    requires WellTimed(h, skew) && h.Then?
    ensures Granted(max, window, h.before).Keys !! Tokens(h.call) && |Tokens(h.call)| == h.call.n
  {
    TokensOf(h.call);
    OfBases(max, window, h.before, skew);
  }

  ghost predicate Admits(granted: map<Member, int>, granted': map<Member, int>, live: Scores, ms: set<Member>, clock: int, max: int) {
    granted' == granted + Stamped(ms, clock) && granted.Keys !! ms && |live| + |ms| <= max
  }

  lemma Fits(granted: map<Member, int>, granted': map<Member, int>, live: Scores, ms: set<Member>, clock: int, max: int, a: int, b: int)
    requires Admits(granted, granted', live, ms, clock, max) && |Within(granted, a, b)| <= max
    requires a < clock <= b ==> |Within(granted, a, b)| <= |live|
    ensures |Within(granted', a, b)| <= max
  {
    WithinGrows(granted, ms, clock, a, b);
  }

  lemma DeniedKeeps(max: int, window: int, h: Calls)
    requires h.Then? && !Answer(max, window, h).admitted
    ensures Granted(max, window, h) == Granted(max, window, h.before)
  {
  }

  lemma AdmittedFits(max: int, window: int, h: Calls, skew: int)
    requires WellTimed(h, skew) && h.Then? && Answer(max, window, h).admitted
    ensures Admits(Granted(max, window, h.before), Granted(max, window, h), LiveAt(max, window, h), Tokens(h.call), h.call.clock, max)
  {
    FreshTokens(max, window, h, skew);
    Latest(max, window, h);
  }

  lemma LiveCovers(max: int, window: int, h: Calls, skew: int, a: int, b: int)
    requires WellTimed(h, skew) && skew >= 0 && h.Then? && b == a + window - 2 * skew
    ensures h.call.clock <= b ==> |Within(Granted(max, window, h.before), a, b)| <= |LiveAt(max, window, h)|
  {
    if h.call.clock <= b {
      WithinIsLive(max, window, h, skew, a);
    }
  }

  /** A call respects the limit in every interval. */
  lemma CallFits(max: int, window: int, h: Calls, skew: int, a: int, b: int)
    requires WellTimed(h, skew) && skew >= 0 && h.Then? && b == a + window - 2 * skew
    requires |Within(Granted(max, window, h.before), a, b)| <= max
    ensures |Within(Granted(max, window, h), a, b)| <= max
  {
    if Answer(max, window, h).admitted {
      AdmittedFits(max, window, h, skew);
      LiveCovers(max, window, h, skew, a, b);
      Fits(Granted(max, window, h.before), Granted(max, window, h), LiveAt(max, window, h), Tokens(h.call), h.call.clock, max, a, b);
    } else {
      DeniedKeeps(max, window, h);
    }
  }

  /** The rate limit: no interval (a, b] of real time of length window - 2 * skew ever sees more than
      max tokens admitted, wherever it begins and whatever is called in it. */
  lemma {:induction false} AnyWindow(max: int, window: int, h: Calls, skew: int, a: int, b: int)
    requires WellTimed(h, skew) && skew >= 0 && max >= 0 && b == a + window - 2 * skew
    ensures |Within(Granted(max, window, h), a, b)| <= max
  {
    if h.NoCall? {
      assert Within(map[], a, b) == {};
    } else {
      AnyWindow(max, window, h.before, skew, a, b);
      CallFits(max, window, h, skew, a, b);
    }
  }

  /** A batch of the whole allowance, from a caller whose clock is slow ... */
  ghost predicate SlowBatch(max: nat, skew: int, h: Calls) {
    h.Then? && h.before.NoCall? && !h.call.unit && h.call.n == max && h.call.clock == skew && h.call.now == 0
  }

  /** ... and another, the window less twice the skew later, from a caller whose clock is fast. */
  ghost predicate FastBatch(max: nat, window: int, skew: int, h: Calls) {
    && h.Then? && SlowBatch(max, skew, h.before) && h.call.base != h.before.call.base
    && !h.call.unit && h.call.n == max && h.call.clock == window - skew && h.call.now == window
  }

  lemma FirstBatch(max: nat, window: int, skew: int, h: Calls)
    requires SlowBatch(max, skew, h) && max >= 1 && skew >= 0
    ensures WellTimed(h, skew) && Bases(h) == {h.call.base} && Granted(max, window, h) == Stamped(Tokens(h.call), skew)
    ensures Answer(max, window, h).scores == Stamped(Tokens(h.call), 0)
  {
    assert LiveAt(max, window, h) == map[];
    Latest(max, window, h);
  }

  /** By the fast clock the first batch is out of the window. */
  lemma FirstIsPruned(max: nat, window: int, skew: int, h: Calls)
    requires FastBatch(max, window, skew, h) && max >= 1 && skew >= 0 && window > 0
    ensures LiveAt(max, window, h) == map[]
  {
    FirstBatch(max, window, skew, h.before);
    assert Pruned(Stamped(Tokens(h.before.call), 0), window, window) == map[];
  }

  lemma GrantedMore(max: int, window: int, h: Calls)
    requires h.Then? && LiveAt(max, window, h) == map[] && h.call.n <= max
    ensures Granted(max, window, h) == Granted(max, window, h.before) + Stamped(Tokens(h.call), h.call.clock)
  {
    Latest(max, window, h);
  }

  lemma SecondBatch(max: nat, window: int, skew: int, h: Calls)
    requires FastBatch(max, window, skew, h) && max >= 1 && skew >= 0 && window > 0
    ensures Granted(max, window, h) == Granted(max, window, h.before) + Stamped(Tokens(h.call), h.call.clock)
  {
    FirstIsPruned(max, window, skew, h);
    GrantedMore(max, window, h);
  }

  lemma BatchesAreTimed(max: nat, window: int, skew: int, h: Calls)
    requires FastBatch(max, window, skew, h) && max >= 1 && skew >= 0 && window > 2 * skew
    ensures WellTimed(h, skew)
  {
    FirstBatch(max, window, skew, h.before);
  }

  lemma BothInside(granted: map<Member, int>, ms: set<Member>, ns: set<Member>, s: int, t: int, a: int, b: int)
    requires granted == Stamped(ms, s) && ms !! ns && a < s <= b && a < t <= b
    ensures |Within(granted + Stamped(ns, t), a, b)| == |ms| + |ns|
  {
    assert Within(granted, a, b) == ms;
    WithinGrows(granted, ns, t, a, b);
  }

  lemma BothFit(max: nat, window: int, skew: int, h: Calls, a: int, b: int)
    requires FastBatch(max, window, skew, h) && skew >= 0 && window > 2 * skew && max >= 1
    requires a == skew - 1 && b == a + window - 2 * skew + 1
    ensures |Within(Granted(max, window, h), a, b)| == 2 * max
  {
    FirstBatch(max, window, skew, h.before);
    SecondBatch(max, window, skew, h);
    TokensOf(h.before.call);
    TokensOf(h.call);
    BothInside(Granted(max, window, h.before), Tokens(h.before.call), Tokens(h.call), h.before.call.clock, h.call.clock, a, b);
  }

  /** The bound is tight, for every limit: in an interval longer by one, twice as many tokens can be
      admitted. */
  lemma WindowIsTight(max: nat, window: int, skew: int, a: int, b: int) returns (h: Calls)
    requires skew >= 0 && window > 2 * skew && max >= 1 && a == skew - 1 && b == a + window - 2 * skew + 1
    ensures WellTimed(h, skew) && |Within(Granted(max, window, h), a, b)| == 2 * max
  {
    h := TwoBatches(max, window, skew);
    BatchesAreTimed(max, window, skew, h);
    BothFit(max, window, skew, h, a, b);
  }

  lemma TwoBatches(max: nat, window: int, skew: int) returns (h: Calls)
    ensures FastBatch(max, window, skew, h)
  {
    h := Then(Then(NoCall, Call(skew, 0, 0, max, false)), Call(window - skew, window, 1, max, false));
  }

  // ---------------------------------------------------------------- the limiter refines its history

  /** With exact clocks the set holds part of the history, unaltered. */
  ghost predicate PartOfHistory(scores: Scores, granted: map<Member, int>) {
    forall m | m in scores :: m in granted && scores[m] == granted[m] && scores[m] >= 0
  }

  lemma {:induction false} ScoresArePart(max: int, window: int, h: Calls)
    requires WellTimed(h, 0)
    ensures PartOfHistory(Answer(max, window, h).scores, Granted(max, window, h))
  {
    if h.Then? {
      ScoresArePart(max, window, h.before);
      Latest(max, window, h);
      OfBases(max, window, h.before, 0);
      TokensOf(h.call);
    }
  }

  /** With exact clocks, what is live is what the history says was admitted in the window. */
  lemma LiveIsHistory(max: int, window: int, h: Calls)
    requires WellTimed(h, 0) && h.Then?
    ensures LiveAt(max, window, h).Keys == Within(Granted(max, window, h.before), h.call.now - window, h.call.now)
  {
    var granted, live := Granted(max, window, h.before), LiveAt(max, window, h);
    var used := Within(granted, h.call.now - window, h.call.now);
    ScoresArePart(max, window, h.before);
    if h.before.Then? {
      Retained(max, window, h.before, 0);
      forall m | m in used ensures m in live.Keys {
        RetainedIsLive(granted, Answer(max, window, h.before).scores, Answer(max, window, h.before).expiry,
                       h.before.call.clock, window, 0, h.call.clock, h.call.now, m);
      }
    }
  }

  /** Pruning and expiry cannot be observed: with exact clocks every call of every run is answered
      as if from the full history, by counting the tokens admitted in (now - window, now]. */
  lemma RefinesHistory(max: int, window: int, h: Calls)
    requires WellTimed(h, 0) && h.Then?
    ensures var used := |Within(Granted(max, window, h.before), h.call.now - window, h.call.now)|;
            && (Answer(max, window, h).admitted <==> used + h.call.n <= max)
            && Answer(max, window, h).remaining == (if used + h.call.n <= max then max - used - h.call.n else 0)
  {
    LiveIsHistory(max, window, h);
    assert |LiveAt(max, window, h)| == |LiveAt(max, window, h).Keys|;
  }
}
