/** What goes wrong when the timeout is shorter than a task: complete runs, from the empty system, in
    which a watchdog fails a task whose worker is merely slow. */
module StaleActors {
  import opened Tasks
  import opened Protocol
  import opened Unconditional
  import opened Coherence
  import opened Exclusion
  import opened Settled
  import opened Orphans
  import opened Outcomes
  import opened SkipLocked

  /** One task and one process, which is all it takes. */
  ghost function One(r: Task, dead: seq<DeadLetter>, y: Tally, claims: map<nat, Claim>, next: nat, found: set<(nat, Task)>, clock: int): Sys {
    Sys(Db(map[0 := r], dead, 1), map[0 := y], claims, next, map[0 := Proc("a", true)], found, clock)
  }

  function Row(m: nat): Task {
    NewRow(0, "c", TaskInput("t", 1, "", Some(m)), 0)
  }

  function Handed(m: nat): Task {
    Snapshot(Row(m), "a")
  }

  /** The row while its slow worker is at it. */
  function Slow(m: nat): Task {
    StartedRow(ClaimedRow(Row(m), "a"), 0)
  }

  lemma Begins(m: nat) returns (s: Sys)
    ensures Steps(INITIAL, Create("c", TaskInput("t", 1, "", Some(m))), s)
    ensures Steps(s, Spawn(0, "a", true), One(Row(m), [], Tally(0, 0, 0, 0), map[], 0, {}, 0))
  {
    s := Apply(INITIAL, Create("c", TaskInput("t", 1, "", Some(m))));
    assert s.tally == map[0 := Tally(0, 0, 0, 0)];
    assert s.db.tasks == map[0 := Row(m)];
    assert !Aborts(s, Spawn(0, "a", true), 0);
  }

  lemma Locks(r: Task, y: Tally, claims: map<nat, Claim>, n: nat, clock: int)
    requires r.id == 0 && r.status == Pending
    requires forall k | k in claims :: !claims[k].stage.Locked? && k < n
    ensures Steps(One(r, [], y, claims, n, {}, clock), LockRow(0, 0), One(r, [], y, claims[n := Claim(0, r, Locked)], n + 1, {}, clock))
  {
    var s := One(r, [], y, claims, n, {}, clock);
    assert LockedIds(s) == {};
    assert Claimable(s.db.tasks, LockedIds(s), r.client, 0);
    assert !Aborts(s, LockRow(0, 0), 0);
  }

  lemma Commits(r: Task, y: Tally, claims: map<nat, Claim>, n: nat, clock: int, k: nat)
    requires r.id == 0 && r.status == Pending && k in claims && claims[k] == Claim(0, r, Locked)
    ensures Steps(One(r, [], y, claims, n, {}, clock), Commit(k),
                  One(ClaimedRow(r, "a"), [], y.(claims := y.claims + 1), claims[k := Claim(0, Snapshot(r, "a"), InHand)], n, {}, clock))
  {
    assert !Aborts(One(r, [], y, claims, n, {}, clock), Commit(k), 0);
  }

  /** Hand over and pick up: only the claim's stage changes. */
  lemma HandsOver(r: Task, y: Tally, claims: map<nat, Claim>, n: nat, clock: int, k: nat, l: Label)
    requires r.id == 0 && k in claims && claims[k].pid == 0
    requires (l == Submit(k) && claims[k].stage.InHand?) || (l == Pickup(k) && claims[k].stage.Queued?)
    ensures Steps(One(r, [], y, claims, n, {}, clock), l,
                  One(r, [], y, claims[k := claims[k].(stage := if l.Submit? then Queued else Picked)], n, {}, clock))
  {
    assert !Aborts(One(r, [], y, claims, n, {}, clock), l, 0);
  }

  lemma Starts(r: Task, y: Tally, claims: map<nat, Claim>, n: nat, clock: int, k: nat)
    requires r.id == 0 && k in claims && claims[k].pid == 0 && claims[k].snap.id == 0 && claims[k].stage.Picked?
    requires forall j | j in claims :: !claims[j].stage.Locked?
    ensures Steps(One(r, [], y, claims, n, {}, clock), Start(k, true),
                  One(StartedRow(r, clock), [], y, claims[k := claims[k].(stage := Started)], n, {}, clock))
  {
    var s := One(r, [], y, claims, n, {}, clock);
    assert LockedIds(s) == {};
    assert !Aborts(s, Start(k, true), 0);
  }

  lemma TimePasses(r: Task, y: Tally, claims: map<nat, Claim>, n: nat)
    requires r.id == 0
    ensures Steps(One(r, [], y, claims, n, {}, 0), Tick(100), One(r, [], y, claims, n, {}, 100))
  {
    assert !Aborts(One(r, [], y, claims, n, {}, 0), Tick(100), 0);
  }

  lemma Found(r: Task, y: Tally, claims: map<nat, Claim>, n: nat)
    requires r.id == 0 && r.status == Running && r.startedAt == Some(0)
    ensures Steps(One(r, [], y, claims, n, {}, 100), Find(0, 10), One(r, [], y, claims, n, {(0, r)}, 100))
  {
    var s := One(r, [], y, claims, n, {}, 100);
    assert s.db.tasks[0] in StaleTasks(s.db.tasks, 90);
    assert StaleTasks(s.db.tasks, 90) == {r};
    assert FoundAfter(s, Find(0, 10)) == {(0, r)};
    assert !Aborts(s, Find(0, 10), 0);
  }

  function TriedAgain(y: Tally, snap: Task): Tally {
    if HasRetriesLeft(snap) then y.(retries := y.retries + 1) else y
  }

  lemma WatchdogFails(r: Task, y: Tally, claims: map<nat, Claim>, n: nat)
    requires r.id == 0 && forall k | k in claims :: !claims[k].stage.Locked?
    ensures Steps(One(r, [], y, claims, n, {(0, r)}, 100), WatchFail(0, r, "late"),
                  One(FailTask(r, r, "late", 100), FailedLetters([], r, "late", 100), TriedAgain(y, r), claims, n, {}, 100))
  {
    var s := One(r, [], y, claims, n, {(0, r)}, 100);
    assert LockedIds(s) == {};
    assert !Aborts(s, WatchFail(0, r, "late"), 0);
    assert s.found - {(0, r)} == {};
  }

  lemma WorkerFails(r: Task, dead: seq<DeadLetter>, y: Tally, claims: map<nat, Claim>, n: nat, k: nat, snap: Task)
    requires r.id == 0 && snap.id == 0 && forall j | j in claims :: !claims[j].stage.Locked?
    requires k in claims && claims[k] == Claim(0, snap, Started)
    ensures Steps(One(r, dead, y, claims, n, {}, 100), Fail(k, "slow"),
                  One(FailTask(r, snap, "slow", 100), FailedLetters(dead, snap, "slow", 100), TriedAgain(y, snap), claims - {k}, n, {}, 100))
  {
    var s := One(r, dead, y, claims, n, {}, 100);
    assert LockedIds(s) == {};
    assert !Aborts(s, Fail(k, "slow"), 0);
  }

  // ---------------------------------------------------------------- the runs

  lemma Extend(states: seq<Sys>, labels: seq<Label>, l: Label, s': Sys)
    requires Run(states, labels) && Steps(states[|states| - 1], l, s')
    ensures Run(states + [s'], labels + [l])
    ensures SettledRun(states, labels) && SettledStep(states[|states| - 1], l) ==> SettledRun(states + [s'], labels + [l])
  {
    var ss, ls := states + [s'], labels + [l];
    forall i {:trigger ls[i]} | 0 <= i < |ls| ensures Steps(ss[i], ls[i], ss[i + 1]) {
      if i < |labels| {
        assert Steps(states[i], labels[i], states[i + 1]);
      }
    }
  }

  ghost predicate Reaches(states: seq<Sys>, labels: seq<Label>, s: Sys) {
    Run(states, labels) && states[|states| - 1] == s
  }

  lemma Then(states: seq<Sys>, labels: seq<Label>, l: Label, s': Sys) returns (ss: seq<Sys>, ls: seq<Label>)
    requires Run(states, labels) && Steps(states[|states| - 1], l, s')
    ensures Reaches(ss, ls, s')
    ensures SettledRun(states, labels) && SettledStep(states[|states| - 1], l) ==> SettledRun(ss, ls)
  {
    Extend(states, labels, l, s');
    ss, ls := states + [s'], labels + [l];
  }

  lemma Claimed(states: seq<Sys>, labels: seq<Label>, r: Task, y: Tally, claims: map<nat, Claim>, n: nat, clock: int)
    returns (ss: seq<Sys>, ls: seq<Label>)
    requires Reaches(states, labels, One(r, [], y, claims, n, {}, clock))
    requires r.id == 0 && r.status == Pending && forall k | k in claims :: !claims[k].stage.Locked? && k < n
    ensures Reaches(ss, ls, One(ClaimedRow(r, "a"), [], y.(claims := y.claims + 1),
                                claims[n := Claim(0, Snapshot(r, "a"), InHand)], n + 1, {}, clock))
    ensures SettledRun(states, labels) ==> SettledRun(ss, ls)
  {
    var locked := claims[n := Claim(0, r, Locked)];
    Locks(r, y, claims, n, clock);
    ss, ls := Then(states, labels, LockRow(0, 0), One(r, [], y, locked, n + 1, {}, clock));
    Commits(r, y, locked, n + 1, clock, n);
    assert locked[n := Claim(0, Snapshot(r, "a"), InHand)] == claims[n := Claim(0, Snapshot(r, "a"), InHand)];
    ss, ls := Then(ss, ls, Commit(n),
                   One(ClaimedRow(r, "a"), [], y.(claims := y.claims + 1), claims[n := Claim(0, Snapshot(r, "a"), InHand)], n + 1, {}, clock));
  }

  lemma Delivered(states: seq<Sys>, labels: seq<Label>, r: Task, y: Tally, claims: map<nat, Claim>, snap: Task, n: nat, clock: int)
    returns (ss: seq<Sys>, ls: seq<Label>)
    requires Reaches(states, labels, One(r, [], y, claims[n := Claim(0, snap, InHand)], n + 1, {}, clock)) && r.id == 0
    ensures Reaches(ss, ls, One(r, [], y, claims[n := Claim(0, snap, Picked)], n + 1, {}, clock))
    ensures SettledRun(states, labels) ==> SettledRun(ss, ls)
  {
    var inHand, queued := claims[n := Claim(0, snap, InHand)], claims[n := Claim(0, snap, Queued)];
    HandsOver(r, y, inHand, n + 1, clock, n, Submit(n));
    assert inHand[n := Claim(0, snap, Queued)] == queued;
    ss, ls := Then(states, labels, Submit(n), One(r, [], y, queued, n + 1, {}, clock));
    HandsOver(r, y, queued, n + 1, clock, n, Pickup(n));
    assert queued[n := Claim(0, snap, Picked)] == claims[n := Claim(0, snap, Picked)];
    ss, ls := Then(ss, ls, Pickup(n), One(r, [], y, claims[n := Claim(0, snap, Picked)], n + 1, {}, clock));
  }

  lemma Begun(states: seq<Sys>, labels: seq<Label>, r: Task, y: Tally, claims: map<nat, Claim>, snap: Task, n: nat, clock: int)
    returns (ss: seq<Sys>, ls: seq<Label>)
    requires Reaches(states, labels, One(r, [], y, claims[n := Claim(0, snap, Picked)], n + 1, {}, clock))
    requires r.id == 0 && snap.id == 0 && forall k | k in claims :: !claims[k].stage.Locked?
    ensures Reaches(ss, ls, One(StartedRow(r, clock), [], y, claims[n := Claim(0, snap, Started)], n + 1, {}, clock))
    ensures SettledRun(states, labels) ==> SettledRun(ss, ls)
  {
    var picked := claims[n := Claim(0, snap, Picked)];
    Starts(r, y, picked, n + 1, clock, n);
    assert picked[n := Claim(0, snap, Started)] == claims[n := Claim(0, snap, Started)];
    ss, ls := Then(states, labels, Start(n, true),
                   One(StartedRow(r, clock), [], y, claims[n := Claim(0, snap, Started)], n + 1, {}, clock));
  }

  /** From a pending row to a worker that has begun. */
  lemma Runs(states: seq<Sys>, labels: seq<Label>, r: Task, y: Tally, claims: map<nat, Claim>, n: nat, clock: int)
    returns (ss: seq<Sys>, ls: seq<Label>)
    requires Reaches(states, labels, One(r, [], y, claims, n, {}, clock))
    requires r.id == 0 && r.status == Pending && forall k | k in claims :: !claims[k].stage.Locked? && k < n
    ensures Reaches(ss, ls, One(StartedRow(ClaimedRow(r, "a"), clock), [], y.(claims := y.claims + 1),
                                claims[n := Claim(0, Snapshot(r, "a"), Started)], n + 1, {}, clock))
    ensures SettledRun(states, labels) ==> SettledRun(ss, ls)
  {
    var r', y', snap := ClaimedRow(r, "a"), y.(claims := y.claims + 1), Snapshot(r, "a");
    ss, ls := Claimed(states, labels, r, y, claims, n, clock);
    ss, ls := Delivered(ss, ls, r', y', claims, snap, n, clock);
    ss, ls := Begun(ss, ls, r', y', claims, snap, n, clock);
  }

  lemma Born(m: nat) returns (ss: seq<Sys>, ls: seq<Label>)
    ensures Reaches(ss, ls, One(Row(m), [], Tally(0, 0, 0, 0), map[], 0, {}, 0))
    ensures SettledRun(ss, ls)
  {
    var s := Begins(m);
    ss, ls := Then([INITIAL], [], Create("c", TaskInput("t", 1, "", Some(m))), s);
    ss, ls := Then(ss, ls, Spawn(0, "a", true), One(Row(m), [], Tally(0, 0, 0, 0), map[], 0, {}, 0));
  }

  /** The worker is still busy when the watchdog looks ... */
  lemma Watched(states: seq<Sys>, labels: seq<Label>, r: Task, y: Tally, claims: map<nat, Claim>, n: nat)
    returns (ss: seq<Sys>, ls: seq<Label>)
    requires Reaches(states, labels, One(r, [], y, claims, n, {}, 0))
    requires r.id == 0 && r.status == Running && r.startedAt == Some(0)
    ensures Reaches(ss, ls, One(r, [], y, claims, n, {(0, r)}, 100))
  {
    TimePasses(r, y, claims, n);
    ss, ls := Then(states, labels, Tick(100), One(r, [], y, claims, n, {}, 100));
    Found(r, y, claims, n);
    ss, ls := Then(ss, ls, Find(0, 10), One(r, [], y, claims, n, {(0, r)}, 100));
  }

  /** ... and acts. */
  lemma TimedOut(states: seq<Sys>, labels: seq<Label>, r: Task, y: Tally, claims: map<nat, Claim>, n: nat)
    returns (ss: seq<Sys>, ls: seq<Label>)
    requires Reaches(states, labels, One(r, [], y, claims, n, {}, 0))
    requires r.id == 0 && r.status == Running && r.startedAt == Some(0)
    requires forall k | k in claims :: !claims[k].stage.Locked?
    ensures Reaches(ss, ls, One(FailTask(r, r, "late", 100), if HasRetriesLeft(r) then [] else [Letter(r, "late", 100)],
                                if HasRetriesLeft(r) then y.(retries := y.retries + 1) else y, claims, n, {}, 100))
  {
    ss, ls := Watched(states, labels, r, y, claims, n);
    WatchdogFails(r, y, claims, n);
    ss, ls := Then(ss, ls, WatchFail(0, r, "late"),
                   One(FailTask(r, r, "late", 100), FailedLetters([], r, "late", 100), TriedAgain(y, r), claims, n, {}, 100));
  }

  /** A watchdog has failed the task under a worker that is still running it. */
  lemma SlowWorkerIsTimedOut(m: nat) returns (ss: seq<Sys>, ls: seq<Label>)
    ensures var r := Slow(m);
            Reaches(ss, ls, One(FailTask(r, r, "late", 100), if HasRetriesLeft(r) then [] else [Letter(r, "late", 100)],
                                Tally(1, if HasRetriesLeft(r) then 1 else 0, 0, 0), map[0 := Claim(0, Handed(m), Started)], 1, {}, 100))
  {
    ss, ls := Born(m);
    ss, ls := Runs(ss, ls, Row(m), Tally(0, 0, 0, 0), map[], 0, 0);
    ss, ls := TimedOut(ss, ls, Slow(m), Tally(1, 0, 0, 0), map[0 := Claim(0, Handed(m), Started)], 1);
  }

  /** Double execution: two workers run the same task at the same time. */
  lemma TwoWorkersRunOneTask(m: nat) returns (ss: seq<Sys>, ls: seq<Label>)
    requires m >= 1
    ensures var r := StartedRow(ClaimedRow(RetriedRow(Slow(m), Slow(m), "late"), "a"), 100);
            Reaches(ss, ls, One(r, [], Tally(2, 1, 0, 0),
                                map[0 := Claim(0, Handed(m), Started), 1 := Claim(0, Snapshot(RetriedRow(Slow(m), Slow(m), "late"), "a"), Started)],
                                2, {}, 100))
    ensures var s := ss[|ss| - 1];
            && 0 in s.claims && 1 in s.claims && s.claims[0].snap.id == s.claims[1].snap.id
            && s.claims[0].stage.Started? && s.claims[1].stage.Started?
    ensures !AllCoherent(ss) && !AllMutex(ss) && !NoHazards(ss, ls)
  {
    ss, ls := SlowWorkerIsTimedOut(m);
    var first := Claim(0, Handed(m), Started);
    ss, ls := Runs(ss, ls, RetriedRow(Slow(m), Slow(m), "late"), Tally(1, 1, 0, 0), map[0 := first], 1, 100);
    var s := ss[|ss| - 1];
    assert 0 in s.claims && 1 in s.claims && !HeldOnce(s.claims);
    MutualExclusion(ss, ls);
  }

  /** Two dead letters for one task: the watchdog files one, and the slow worker the other. */
  lemma TwoDeadLettersForOneTask() returns (ss: seq<Sys>, ls: seq<Label>)
    ensures Run(ss, ls) && DeadCount(ss[|ss| - 1].db.dead, 0) == 2
  {
    ss, ls := SlowWorkerIsTimedOut(0);
    var r, claims := Slow(0), map[0 := Claim(0, Handed(0), Started)];
    var dead := [Letter(r, "late", 100)];
    WorkerFails(FailTask(r, r, "late", 100), dead, Tally(1, 0, 0, 0), claims, 1, 0, Handed(0));
    ss, ls := Then(ss, ls, Fail(0, "slow"), Apply(ss[|ss| - 1], Fail(0, "slow")));
    DeadCountPush([], dead[0], 0);
    DeadCountPush(dead, Letter(Handed(0), "slow", 100), 0);
  }

  /** The retry counter goes back: the second worker's failure is recorded as the second, and then
      the first one's, once more, as the first. */
  lemma RetryCountGoesBack() returns (ss: seq<Sys>, ls: seq<Label>)
    ensures Run(ss, ls) && |ss| >= 2
    ensures var before, after := ss[|ss| - 2].db.tasks, ss[|ss| - 1].db.tasks;
            0 in before && 0 in after && before[0].retryCount == 2 && after[0].retryCount == 1
  {
    var m := 2;
    ss, ls := TwoWorkersRunOneTask(m);
    var first, retried := Claim(0, Handed(m), Started), RetriedRow(Slow(m), Slow(m), "late");
    var second := Claim(0, Snapshot(retried, "a"), Started);
    var r := StartedRow(ClaimedRow(retried, "a"), 100);
    WorkerFails(r, [], Tally(2, 1, 0, 0), map[0 := first, 1 := second], 2, 1, second.snap);
    var r1 := FailTask(r, second.snap, "slow", 100);
    assert map[0 := first, 1 := second] - {1} == map[0 := first];
    ss, ls := Then(ss, ls, Fail(1, "slow"), One(r1, [], Tally(2, 2, 0, 0), map[0 := first], 2, {}, 100));
    WorkerFails(r1, [], Tally(2, 2, 0, 0), map[0 := first], 2, 0, first.snap);
    var last := Apply(ss[|ss| - 1], Fail(0, "slow"));
    Extend(ss, ls, Fail(0, "slow"), last);
    ss, ls := ss + [last], ls + [Fail(0, "slow")];
  }

  /** Claims stop looking atomic: an instance is started, and recovers, under the name of one that has
      just locked a row. */
  lemma RecoveryMeetsOpenClaim(m: nat) returns (ss: seq<Sys>, ls: seq<Label>)
    ensures Run(ss, ls) && !IsAtomicRun(ss, ls)
  {
    var locked, l := map[0 := Claim(0, Row(m), Locked)], Spawn(1, "a", true);
    ss, ls := Born(m);
    Locks(Row(m), Tally(0, 0, 0, 0), map[], 0, 0);
    ss, ls := Then(ss, ls, LockRow(0, 0), One(Row(m), [], Tally(0, 0, 0, 0), locked, 1, {}, 0));
    var s := ss[|ss| - 1];
    assert IsLock(s.claims, 0) && !NoOpenClaim(s, l);
    Extend(ss, ls, l, Apply(s, l));
    ss, ls := ss + [Apply(s, l)], ls + [l];
    assert !NoOpenClaim(ss[|ls| - 1], ls[|ls| - 1]);
    SkipLockedRefinesAtomicClaiming(ss, ls);
  }

  // ---------------------------------------------------------------- settled runs

  /** A process crashes between claiming a task and beginning with it: nobody will find the task. */
  lemma OrphanNobodyFinds(m: nat) returns (ss: seq<Sys>, ls: seq<Label>)
    ensures SettledRun(ss, ls) && Stranded(ss[|ss| - 1], 0, "a") && ss[|ss| - 1].procs == map[]
  {
    ss, ls := Born(m);
    ss, ls := Claimed(ss, ls, Row(m), Tally(0, 0, 0, 0), map[], 0, 0);
    var s := ss[|ss| - 1];
    Crashes(ClaimedRow(Row(m), "a"), s);
    ss, ls := Then(ss, ls, Crash(0), Apply(s, Crash(0)));
  }

  lemma Crashes(r: Task, s: Sys)
    requires s.db.tasks == map[0 := r] && IsOrphanOf(r, "a") && r.startedAt == None && r.id == 0
    requires s.procs.Keys == {0} && forall k | k in s.claims :: s.claims[k].pid == 0
    ensures Enabled(s, Crash(0)) && Stranded(Apply(s, Crash(0)), 0, "a") && Apply(s, Crash(0)).procs == map[]
  {
  }

  /** A client cancels a task whose worker has begun: it is cancelled and held, and cancelling it was
      not final. */
  lemma CancelledWhileHeld(m: nat) returns (ss: seq<Sys>, ls: seq<Label>)
    ensures SettledRun(ss, ls)
    ensures var s := ss[|ss| - 1];
            0 in s.db.tasks && s.db.tasks[0].status == Cancelled && Held(s, 0) && !StaysCancelled(s, 0)
  {
    ss, ls := Born(m);
    ss, ls := Runs(ss, ls, Row(m), Tally(0, 0, 0, 0), map[], 0, 0);
    var s := ss[|ss| - 1];
    Cancels(Slow(m), s);
    ss, ls := Then(ss, ls, Cancel("c", 0), Apply(s, Cancel("c", 0)));
    SettledInvRun(ss, ls, |ss| - 1);
    CancelIsFinalIffUnheld(ss[|ss| - 1], 0);
  }

  lemma Cancels(r: Task, s: Sys)
    requires s.db.tasks == map[0 := r] && r.status == Running && r.client == "c" && r.id == 0
    requires 0 in s.claims && s.claims[0].snap.id == 0 && forall k | k in s.claims :: !s.claims[k].stage.Locked?
    ensures Enabled(s, Cancel("c", 0))
    ensures var s' := Apply(s, Cancel("c", 0)); 0 in s'.db.tasks && s'.db.tasks[0].status == Cancelled && Held(s', 0)
  {
    assert LockedIds(s) == {};
    var s' := Apply(s, Cancel("c", 0));
    assert s'.claims[0].snap.id == 0;
  }
}
