/** Claiming with FOR UPDATE SKIP LOCKED looks like claiming in one atomic action.

    The abstract table shows a row as claimed from the moment its lock is taken. Seen through it,
    taking the lock is the claim, and it takes the best pending row of the client with no regard
    to locks; an empty SELECT means the client has no pending row at all; the commit is invisible;
    an abandoned transaction puts the row back; and every other statement does to the abstract
    table what it does to the real one. */
module SkipLocked {
  import opened Tasks
  import opened Protocol
  import opened Unconditional

  /** The open claim that holds this row's lock. */
  ghost function LockNo(claims: map<nat, Claim>, id: nat): (k: nat)
    requires id in LockedIn(claims)
    ensures IsLock(claims, k) && claims[k].snap.id == id
  {
    var k :| k in claims && claims[k].stage.Locked? && claims[k].snap.id == id; k
  }

  /** The name under which the process holding this row's lock is claiming. */
  ghost function Claimer(claims: map<nat, Claim>, procs: map<nat, Proc>, id: nat): string
    requires id in LockedIn(claims)
  {
    var pid := claims[LockNo(claims, id)].pid;
    if pid in procs then procs[pid].name else ""
  }

  ghost function Shown(claims: map<nat, Claim>, procs: map<nat, Proc>, r: Task): Task {
    if r.id in LockedIn(claims) then ClaimedRow(r, Claimer(claims, procs, r.id)) else r
  }

  /** A table as it shows. */
  ghost function Shows(claims: map<nat, Claim>, procs: map<nat, Proc>, tasks: map<nat, Task>): map<nat, Task> {
    map id | id in tasks :: Shown(claims, procs, tasks[id])
  }

  /** The table as if every claim had been made when its lock was taken. */
  ghost function Abstract(s: Sys): map<nat, Task> {
    Shows(s.claims, s.procs, s.db.tasks)
  }

  /** A recovery finds no claim transaction open under the name it recovers. */
  ghost predicate NoOpenClaim(s: Sys, l: Label) {
    l.Spawn? && l.recovered ==>
      forall k | IsLock(s.claims, k) && s.claims[k].pid in s.procs :: s.procs[s.claims[k].pid].name != l.name
  }

  /** The step in a world where a claim is one atomic action on the table a. */
  ghost predicate AtomicNext(a: map<nat, Task>, s: Sys, l: Label, a': map<nat, Task>)
    requires Enabled(s, l)
  {
    match l
    case LockRow(pid, id) =>
      id in a && Best(a, {}, a[id].client, id) && a' == a[id := ClaimedRow(a[id], s.procs[pid].name)]
    case FindNone(pid, client) =>
      (forall id :: !Claimable(a, {}, client, id)) && a' == a
    case Commit(k) => a' == a
    case Rollback(k) => GivesBack(a, s, l, a')
    case Crash(pid) => GivesBack(a, s, l, a')
    case _ => a' == RowWrites(a, s, l)
  }

  /** The claims whose transactions are abandoned are undone, and nothing else changes. */
  ghost predicate GivesBack(a: map<nat, Task>, s: Sys, l: Label, a': map<nat, Task>) {
    && a'.Keys == a.Keys
    && forall id | id in a :: if Aborts(s, l, id) then Undone(s, a[id], a'[id]) else a'[id] == a[id]
  }

  ghost predicate Undone(s: Sys, claimed: Task, row: Task) {
    row.status == Pending && row.id in LockedIds(s) && claimed == ClaimedRow(row, Claimer(s.claims, s.procs, row.id))
  }

  // ---------------------------------------------------------------- locked and unlocked rows

  lemma ShownLocked(tasks: map<nat, Task>, claims: map<nat, Claim>, procs: map<nat, Proc>, k: nat)
    requires LocksOk(tasks, claims) && IsLock(claims, k) && claims[k].pid in procs
    ensures var r := claims[k].snap;
            && r.id in tasks && tasks[r.id] == r && r.status == Pending
            && r.id in LockedIn(claims) && Claimer(claims, procs, r.id) == procs[claims[k].pid].name
  {
    assert LockOk(tasks, claims[k].snap);
    assert claims[k].snap.id in LockedIn(claims);
    assert LockNo(claims, claims[k].snap.id) == k;
  }

  /** The same before and after a step. */
  lemma LockedNow(s: Sys, k: nat)
    requires Base(s) && IsLock(s.claims, k)
    ensures var r := s.claims[k].snap;
            && r.id in s.db.tasks && s.db.tasks[r.id] == r && r.status == Pending && s.claims[k].pid in s.procs
            && r.id in LockedIds(s) && Claimer(s.claims, s.procs, r.id) == s.procs[s.claims[k].pid].name
  {
    ShownLocked(s.db.tasks, s.claims, s.procs, k);
  }

  lemma LockedNext(s: Sys, l: Label, k: nat)
    requires Base(s) && Enabled(s, l) && IsLock(ClaimsAfter(s, l), k)
    ensures var c := ClaimsAfter(s, l)[k];
            && c.snap.id in LockedIn(ClaimsAfter(s, l)) && c.pid in ProcsAfter(s, l)
            && Claimer(ClaimsAfter(s, l), ProcsAfter(s, l), c.snap.id) == ProcsAfter(s, l)[c.pid].name
            && c.snap.id in RowWrites(s.db.tasks, s, l) && RowWrites(s.db.tasks, s, l)[c.snap.id] == c.snap
  {
    ClaimsStep(s, l);
    LocksStep(s, l);
    ShownLocked(RowWrites(s.db.tasks, s, l), ClaimsAfter(s, l), ProcsAfter(s, l), k);
  }

  /** What may be claimed in the abstract table, without any lock in sight, is what may be claimed
      in the real one around the locks. */
  lemma SameClaimable(s: Sys, client: string, id: nat)
    requires Base(s)
    ensures Claimable(Abstract(s), {}, client, id) <==> Claimable(s.db.tasks, LockedIds(s), client, id)
    ensures id in s.db.tasks && id !in LockedIds(s) ==> Abstract(s)[id] == s.db.tasks[id]
  {
    if id in s.db.tasks {
      assert RowOk(id, s.db.tasks[id]);
      if id in LockedIds(s) {
        LockedNow(s, LockNo(s.claims, id));
      }
    }
  }

  lemma SameBest(s: Sys, client: string, id: nat)
    requires Base(s) && Best(s.db.tasks, LockedIds(s), client, id)
    ensures Best(Abstract(s), {}, client, id)
  {
    SameClaimable(s, client, id);
    forall other | other in Abstract(s) && Claimable(Abstract(s), {}, client, other)
      ensures !Before(Abstract(s)[other], Abstract(s)[id])
    {
      SameClaimable(s, client, other);
    }
  }

  // ---------------------------------------------------------------- one row, one step

  /** A lock that stays open shows the same row as before. */
  lemma ShownStays(s: Sys, l: Label, k: nat)
    requires Base(s) && Enabled(s, l) && NoOpenClaim(s, l) && IsLock(s.claims, k) && IsLock(ClaimsAfter(s, l), k)
    ensures var r := s.claims[k].snap;
            && r.id in s.db.tasks && r.id in RowWrites(s.db.tasks, s, l)
            && Shown(ClaimsAfter(s, l), ProcsAfter(s, l), RowWrites(s.db.tasks, s, l)[r.id]) == Shown(s.claims, s.procs, s.db.tasks[r.id])
            && WriteTo(s, l, Shown(s.claims, s.procs, s.db.tasks[r.id])) == Keep
  {
    var r := s.claims[k].snap;
    assert k < s.nextClaim;
    ClaimOrigin(s, l, k);
    LockedKeeps(s, l, k);
    LockedNow(s, k);
    LockedNext(s, l, k);
  }

  predicate Releases(s: Sys, l: Label, k: nat) {
    k in s.claims && (l == Commit(k) || l == Rollback(k) || l == Crash(s.claims[k].pid))
  }

  lemma LockStays(s: Sys, l: Label, k: nat)
    requires Base(s) && Enabled(s, l) && IsLock(s.claims, k) && !Releases(s, l, k)
    ensures IsLock(ClaimsAfter(s, l), k)
  {
    assert k < s.nextClaim;
  }

  lemma UnlockedStays(s: Sys, l: Label, id: nat)
    requires Base(s) && Enabled(s, l) && id !in LockedIds(s) && !(l.LockRow? && l.id == id)
    ensures id !in LockedIn(ClaimsAfter(s, l))
  {
    forall k | IsLock(ClaimsAfter(s, l), k) ensures ClaimsAfter(s, l)[k].snap.id != id {
      ClaimOrigin(s, l, k);
      if l.LockRow? && k == s.nextClaim {
        assert RowOk(l.id, s.db.tasks[l.id]);
      } else {
        assert s.claims[k].snap.id in LockedIds(s);
      }
    }
  }

  /** The lock of this row is released by the step. */
  ghost predicate Released(s: Sys, l: Label, id: nat) {
    exists k :: IsLock(s.claims, k) && s.claims[k].snap.id == id && Releases(s, l, k)
  }

  /** A row whose lock is neither taken nor released by the step shows what the statement does. */
  lemma ShownElsewhere(s: Sys, l: Label, id: nat)
    requires Base(s) && Enabled(s, l) && NoOpenClaim(s, l) && id in s.db.tasks
    requires !(l.LockRow? && l.id == id) && !Released(s, l, id)
    ensures var r := Shown(s.claims, s.procs, s.db.tasks[id]);
            id in RowWrites(s.db.tasks, s, l) && Shown(ClaimsAfter(s, l), ProcsAfter(s, l), RowWrites(s.db.tasks, s, l)[id]) == Do(r, WriteTo(s, l, r))
  {
    RowWritesAt(s, l, id);
    if id in LockedIds(s) {
      var k := LockNo(s.claims, id);
      LockStays(s, l, k);
      ShownStays(s, l, k);
      LockedNow(s, k);
    } else {
      UnlockedStays(s, l, id);
      RowStep(s, l, id);
    }
  }

  lemma RowWritesAt(s: Sys, l: Label, id: nat)
    requires RowsOk(s.db.tasks, s.db.nextId) && Enabled(s, l) && id in s.db.tasks
    ensures s.db.tasks[id].id == id
    ensures id in RowWrites(s.db.tasks, s, l) && RowWrites(s.db.tasks, s, l)[id] == RowAfter(s.db.tasks[id], s, l)
  {
    assert RowOk(id, s.db.tasks[id]);
  }

  /** What an existing row shows after the step. */
  ghost function ShownNext(s: Sys, l: Label, id: nat): Task
    requires Enabled(s, l) && id in s.db.tasks
  {
    Shown(ClaimsAfter(s, l), ProcsAfter(s, l), RowAfter(s.db.tasks[id], s, l))
  }

  /** The rows there were, as they show after the step. */
  ghost function NextRows(s: Sys, l: Label): map<nat, Task>
    requires Enabled(s, l)
  {
    map id | id in s.db.tasks :: ShownNext(s, l, id)
  }

  lemma CreatedShows(s: Sys, l: Label)
    requires Base(s) && Enabled(s, l) && l.Create?
    ensures s.db.nextId !in s.db.tasks && s.db.nextId !in LockedIn(ClaimsAfter(s, l))
  {
    forall k | k in s.claims ensures s.claims[k].snap.id != s.db.nextId {
      assert SnapOk(s.db.tasks, s.claims[k].snap);
      assert RowOk(s.claims[k].snap.id, s.db.tasks[s.claims[k].snap.id]);
    }
  }

  lemma WrittenKeys(s: Sys, l: Label)
    requires RowsOk(s.db.tasks, s.db.nextId) && Enabled(s, l)
    ensures RowWrites(s.db.tasks, s, l).Keys == s.db.tasks.Keys + (if l.Create? then {s.db.nextId} else {})
    ensures l.Create? ==> s.db.nextId !in s.db.tasks && RowWrites(s.db.tasks, s, l)[s.db.nextId] == NewRow(s.db.nextId, l.client, l.input, s.clock)
  {
  }

  lemma WrittenRows(s: Sys, l: Label)
    requires RowsOk(s.db.tasks, s.db.nextId) && Enabled(s, l)
    ensures forall id | id in s.db.tasks ::
              id in RowWrites(s.db.tasks, s, l) && Shown(ClaimsAfter(s, l), ProcsAfter(s, l), RowWrites(s.db.tasks, s, l)[id]) == NextRows(s, l)[id]
  {
    forall id | id in s.db.tasks
      ensures id in RowWrites(s.db.tasks, s, l) && Shown(ClaimsAfter(s, l), ProcsAfter(s, l), RowWrites(s.db.tasks, s, l)[id]) == NextRows(s, l)[id]
    {
      RowWritesAt(s, l, id);
    }
  }

  lemma SameShows(claims: map<nat, Claim>, procs: map<nat, Proc>, tasks: map<nat, Task>, rows: map<nat, Task>)
    requires tasks.Keys == rows.Keys && forall id | id in rows :: id in tasks && Shown(claims, procs, tasks[id]) == rows[id]
    ensures Shows(claims, procs, tasks) == rows
  {
  }

  lemma OneMoreShows(claims: map<nat, Claim>, procs: map<nat, Proc>, tasks: map<nat, Task>, rows: map<nat, Task>, n: nat)
    requires tasks.Keys == rows.Keys + {n} && n !in rows && tasks[n].id == n && n !in LockedIn(claims)
    requires forall id | id in rows :: id in tasks && Shown(claims, procs, tasks[id]) == rows[id]
    ensures Shows(claims, procs, tasks) == rows[n := tasks[n]]
  {
  }

  lemma CreatedNext(s: Sys, l: Label)
    requires Base(s) && Enabled(s, l) && l.Create?
    ensures Shows(ClaimsAfter(s, l), ProcsAfter(s, l), RowWrites(s.db.tasks, s, l)) ==
              NextRows(s, l)[s.db.nextId := NewRow(s.db.nextId, l.client, l.input, s.clock)]
  {
    WrittenKeys(s, l);
    WrittenRows(s, l);
    CreatedShows(s, l);
    OneMoreShows(ClaimsAfter(s, l), ProcsAfter(s, l), RowWrites(s.db.tasks, s, l), NextRows(s, l), s.db.nextId);
  }

  lemma WrittenNext(s: Sys, l: Label)
    requires RowsOk(s.db.tasks, s.db.nextId) && Enabled(s, l) && !l.Create?
    ensures Shows(ClaimsAfter(s, l), ProcsAfter(s, l), RowWrites(s.db.tasks, s, l)) == NextRows(s, l)
  {
    WrittenKeys(s, l);
    WrittenRows(s, l);
    SameShows(ClaimsAfter(s, l), ProcsAfter(s, l), RowWrites(s.db.tasks, s, l), NextRows(s, l));
  }

  /** The abstract table after a step. */
  lemma AbstractNext(s: Sys, l: Label)
    requires Base(s) && Enabled(s, l)
    ensures Abstract(Apply(s, l)) ==
              if l.Create? then NextRows(s, l)[s.db.nextId := NewRow(s.db.nextId, l.client, l.input, s.clock)] else NextRows(s, l)
  {
    if l.Create? {
      CreatedNext(s, l);
    } else {
      WrittenNext(s, l);
    }
  }

  /** A row whose lock is neither taken nor released by the step shows what the statement does. */
  lemma ElsewhereNext(s: Sys, l: Label, id: nat)
    requires Base(s) && Enabled(s, l) && NoOpenClaim(s, l) && id in s.db.tasks
    requires !(l.LockRow? && l.id == id) && !Released(s, l, id)
    ensures var r := Abstract(s)[id]; r.id == id && ShownNext(s, l, id) == Do(r, WriteTo(s, l, r))
  {
    ShownElsewhere(s, l, id);
    RowWritesAt(s, l, id);
  }

  // ---------------------------------------------------------------- the simulation, step by step

  lemma LockShows(s: Sys, l: Label)
    requires Base(s) && Enabled(s, l) && l.LockRow?
    ensures ShownNext(s, l, l.id) == ClaimedRow(s.db.tasks[l.id], s.procs[l.pid].name)
    ensures l.id !in LockedIds(s)
  {
    assert RowOk(l.id, s.db.tasks[l.id]);
    assert IsLock(ClaimsAfter(s, l), s.nextClaim);
    LockedNext(s, l, s.nextClaim);
  }

  lemma LockShowsAll(s: Sys, l: Label)
    requires Base(s) && Enabled(s, l) && l.LockRow?
    ensures forall id | id in s.db.tasks ::
              NextRows(s, l)[id] == if id == l.id then ClaimedRow(Abstract(s)[l.id], s.procs[l.pid].name) else Abstract(s)[id]
  {
    forall id | id in s.db.tasks
      ensures NextRows(s, l)[id] == if id == l.id then ClaimedRow(Abstract(s)[l.id], s.procs[l.pid].name) else Abstract(s)[id]
    {
      if id == l.id {
        LockShows(s, l);
        SameClaimable(s, s.db.tasks[id].client, id);
      } else {
        ElsewhereNext(s, l, id);
      }
    }
  }

  lemma SameUpdated(a: map<nat, Task>, a': map<nat, Task>, id: nat, r: Task)
    requires id in a && a'.Keys == a.Keys && forall i | i in a :: a'[i] == if i == id then r else a[i]
    ensures a' == a[id := r]
  {
  }

  lemma LockNext(s: Sys, l: Label)
    requires Base(s) && Enabled(s, l) && l.LockRow?
    ensures NextRows(s, l) == Abstract(s)[l.id := ClaimedRow(Abstract(s)[l.id], s.procs[l.pid].name)]
  {
    LockShowsAll(s, l);
    SameUpdated(Abstract(s), NextRows(s, l), l.id, ClaimedRow(Abstract(s)[l.id], s.procs[l.pid].name));
  }

  lemma LockIsClaim(s: Sys, l: Label)
    requires Base(s) && Enabled(s, l) && l.LockRow?
    ensures var a := Abstract(s);
            && l.id in a && Best(a, {}, a[l.id].client, l.id)
            && Abstract(Apply(s, l)) == a[l.id := ClaimedRow(a[l.id], s.procs[l.pid].name)]
  {
    LockTakesBest(s, l);
    LockNext(s, l);
    AbstractNext(s, l);
  }

  lemma LockTakesBest(s: Sys, l: Label)
    requires Base(s) && Enabled(s, l) && l.LockRow?
    ensures l.id in Abstract(s) && Best(Abstract(s), {}, Abstract(s)[l.id].client, l.id)
  {
    SameBest(s, s.db.tasks[l.id].client, l.id);
    SameClaimable(s, s.db.tasks[l.id].client, l.id);
  }

  lemma EmptyNext(s: Sys, l: Label)
    requires Base(s) && Enabled(s, l) && l.FindNone?
    ensures NextRows(s, l) == Abstract(s)
  {
    forall id | id in s.db.tasks ensures ShownNext(s, l, id) == Abstract(s)[id] {
      ElsewhereNext(s, l, id);
    }
  }

  lemma EmptyMeansEmpty(s: Sys, l: Label)
    requires Base(s) && Enabled(s, l) && l.FindNone?
    ensures forall id :: !Claimable(Abstract(s), {}, l.client, id)
    ensures Abstract(Apply(s, l)) == Abstract(s)
  {
    forall id ensures !Claimable(Abstract(s), {}, l.client, id) {
      SameClaimable(s, l.client, id);
    }
    EmptyNext(s, l);
    AbstractNext(s, l);
  }

  lemma CommitShows(s: Sys, l: Label, id: nat)
    requires Base(s) && Enabled(s, l) && l.Commit? && id in s.db.tasks
    ensures ShownNext(s, l, id) == Abstract(s)[id]
  {
    assert IsLock(s.claims, l.k);
    RowWritesAt(s, l, id);
    if id == s.claims[l.k].snap.id {
      LockedNow(s, l.k);
      ReleasedIsUnlocked(s, l, l.k);
    } else {
      ElsewhereNext(s, l, id);
    }
  }

  lemma NothingShows(s: Sys, l: Label)
    requires Enabled(s, l) && forall id | id in s.db.tasks :: ShownNext(s, l, id) == Abstract(s)[id]
    ensures NextRows(s, l) == Abstract(s)
  {
  }

  lemma CommitNext(s: Sys, l: Label)
    requires Base(s) && Enabled(s, l) && l.Commit?
    ensures NextRows(s, l) == Abstract(s)
  {
    forall id | id in s.db.tasks ensures ShownNext(s, l, id) == Abstract(s)[id] {
      CommitShows(s, l, id);
    }
    NothingShows(s, l);
  }

  lemma CommitIsInvisible(s: Sys, l: Label)
    requires Base(s) && Enabled(s, l) && l.Commit?
    ensures Abstract(Apply(s, l)) == Abstract(s)
  {
    CommitNext(s, l);
    AbstractNext(s, l);
  }

  lemma ReleasedIsUnlocked(s: Sys, l: Label, k: nat)
    requires Base(s) && Enabled(s, l) && IsLock(s.claims, k) && Releases(s, l, k)
    ensures s.claims[k].snap.id !in LockedIn(ClaimsAfter(s, l))
  {
    forall j | IsLock(ClaimsAfter(s, l), j) ensures ClaimsAfter(s, l)[j].snap.id != s.claims[k].snap.id {
      ClaimOrigin(s, l, j);
      assert IsLock(s.claims, j) && j != k;
    }
  }

  lemma AbortShows(s: Sys, l: Label, id: nat)
    requires Base(s) && Enabled(s, l) && (l.Rollback? || l.Crash?) && id in s.db.tasks
    ensures if Aborts(s, l, id) then Undone(s, Abstract(s)[id], ShownNext(s, l, id)) else ShownNext(s, l, id) == Abstract(s)[id]
  {
    if Aborts(s, l, id) {
      var k := if l.Rollback? then l.k else AbortedLock(s, l, id);
      assert IsLock(s.claims, k);
      LockedNow(s, k);
      ReleasedIsUnlocked(s, l, k);
    } else {
      ElsewhereNext(s, l, id);
    }
  }

  lemma AbortNext(s: Sys, l: Label)
    requires Base(s) && Enabled(s, l) && (l.Rollback? || l.Crash?)
    ensures GivesBack(Abstract(s), s, l, NextRows(s, l))
  {
    forall id | id in s.db.tasks
      ensures if Aborts(s, l, id) then Undone(s, Abstract(s)[id], ShownNext(s, l, id)) else ShownNext(s, l, id) == Abstract(s)[id]
    {
      AbortShows(s, l, id);
    }
  }

  lemma AbortGivesBack(s: Sys, l: Label)
    requires Base(s) && Enabled(s, l) && (l.Rollback? || l.Crash?)
    ensures GivesBack(Abstract(s), s, l, Abstract(Apply(s, l)))
  {
    AbortNext(s, l);
    AbstractNext(s, l);
  }

  ghost function AbortedLock(s: Sys, l: Label, id: nat): (k: nat)
    requires l.Crash? && Aborts(s, l, id)
    ensures IsLock(s.claims, k) && s.claims[k].pid == l.pid && s.claims[k].snap.id == id
  {
    var k :| k in s.claims && s.claims[k].stage.Locked? && s.claims[k].pid == l.pid && s.claims[k].snap.id == id; k
  }

  predicate IsClaiming(l: Label) {
    l.LockRow? || l.FindNone? || l.Commit? || l.Rollback? || l.Crash?
  }

  lemma StatementShows(s: Sys, l: Label, id: nat)
    requires Base(s) && Enabled(s, l) && NoOpenClaim(s, l) && !IsClaiming(l) && id in s.db.tasks
    ensures ShownNext(s, l, id) == RowAfter(Abstract(s)[id], s, l)
  {
    NothingReleased(s, l, id);
    ElsewhereNext(s, l, id);
  }

  lemma NothingReleased(s: Sys, l: Label, id: nat)
    requires Enabled(s, l) && !IsClaiming(l)
    ensures !Released(s, l, id)
  {
  }

  lemma StatementRows(s: Sys, l: Label)
    requires Base(s) && Enabled(s, l) && NoOpenClaim(s, l) && !IsClaiming(l)
    ensures forall id | id in s.db.tasks :: NextRows(s, l)[id] == RowAfter(Abstract(s)[id], s, l)
  {
    forall id | id in s.db.tasks ensures NextRows(s, l)[id] == RowAfter(Abstract(s)[id], s, l) {
      StatementShows(s, l, id);
    }
  }

  lemma SameWritten(a: map<nat, Task>, rows: map<nat, Task>, s: Sys, l: Label)
    requires Enabled(s, l) && rows.Keys == a.Keys && forall id | id in a :: rows[id] == RowAfter(a[id], s, l)
    ensures RowWrites(a, s, l) == if l.Create? then rows[s.db.nextId := NewRow(s.db.nextId, l.client, l.input, s.clock)] else rows
  {
  }

  lemma StatementNext(s: Sys, l: Label)
    requires Base(s) && Enabled(s, l) && NoOpenClaim(s, l) && !IsClaiming(l)
    ensures RowWrites(Abstract(s), s, l) ==
              if l.Create? then NextRows(s, l)[s.db.nextId := NewRow(s.db.nextId, l.client, l.input, s.clock)] else NextRows(s, l)
  {
    StatementRows(s, l);
    SameWritten(Abstract(s), NextRows(s, l), s, l);
  }

  /** Every other statement commutes with showing open claims as made. */
  lemma StatementCommutes(s: Sys, l: Label)
    requires Base(s) && Enabled(s, l) && NoOpenClaim(s, l) && !IsClaiming(l)
    ensures Abstract(Apply(s, l)) == RowWrites(Abstract(s), s, l)
  {
    StatementNext(s, l);
    AbstractNext(s, l);
  }

  lemma ClearStepRefines(s: Sys, l: Label)
    requires Base(s) && Enabled(s, l) && NoOpenClaim(s, l)
    ensures AtomicNext(Abstract(s), s, l, Abstract(Apply(s, l)))
  {
    if l.LockRow? {
      LockIsClaim(s, l);
    } else if l.FindNone? {
      EmptyMeansEmpty(s, l);
    } else if l.Commit? {
      CommitIsInvisible(s, l);
    } else if l.Rollback? || l.Crash? {
      AbortGivesBack(s, l);
    } else {
      StatementCommutes(s, l);
    }
  }

  /** The atomic machine would requeue the claim; the real recovery does not see it. */
  lemma OpenClaimShows(s: Sys, l: Label, k: nat)
    requires Base(s) && Enabled(s, l) && l.Spawn? && l.recovered
    requires IsLock(s.claims, k) && s.claims[k].pid in s.procs && s.procs[s.claims[k].pid].name == l.name
    ensures var id := s.claims[k].snap.id;
            && id in s.db.tasks && ShownNext(s, l, id).status == Running
            && id in RowWrites(Abstract(s), s, l) && RowWrites(Abstract(s), s, l)[id].status == Pending
  {
    LockedNow(s, k);
    LockedNext(s, l, k);
    RowWritesAt(s, l, s.claims[k].snap.id);
  }

  lemma RecoveryMisses(s: Sys, l: Label)
    requires Base(s) && Enabled(s, l) && !NoOpenClaim(s, l)
    ensures !AtomicNext(Abstract(s), s, l, Abstract(Apply(s, l)))
  {
    var k :| IsLock(s.claims, k) && s.claims[k].pid in s.procs && s.procs[s.claims[k].pid].name == l.name;
    OpenClaimShows(s, l, k);
    AbstractNext(s, l);
  }

  /** A step is the matching step of the machine that claims atomically if and only if it is no recovery
      that meets an open claim of the name it recovers. */
  lemma RefinesIffNoOpenClaim(s: Sys, l: Label)
    requires Base(s) && Enabled(s, l)
    ensures AtomicNext(Abstract(s), s, l, Abstract(Apply(s, l))) <==> NoOpenClaim(s, l)
  {
    if NoOpenClaim(s, l) {
      ClearStepRefines(s, l);
    } else {
      RecoveryMisses(s, l);
    }
  }

  // ---------------------------------------------------------------- whole runs

  ghost predicate IsAtomicStep(s: Sys, l: Label, s': Sys) {
    Enabled(s, l) && AtomicNext(Abstract(s), s, l, Abstract(s'))
  }

  /** Seen through the abstract table, the run is a run of the machine that claims atomically. */
  ghost predicate IsAtomicRun(states: seq<Sys>, labels: seq<Label>)
    requires |states| == |labels| + 1
  {
    Abstract(states[0]) == map[] && forall i {:trigger labels[i]} | 0 <= i < |labels| :: IsAtomicStep(states[i], labels[i], states[i + 1])
  }

  ghost predicate NoOpenClaims(states: seq<Sys>, labels: seq<Label>)
    requires |states| == |labels| + 1
  {
    forall i | 0 <= i < |labels| :: NoOpenClaim(states[i], labels[i])
  }

  lemma AtomicAt(states: seq<Sys>, labels: seq<Label>, i: nat)
    requires Run(states, labels) && i < |labels|
    ensures IsAtomicStep(states[i], labels[i], states[i + 1]) <==> NoOpenClaim(states[i], labels[i])
  {
    BaseRun(states, labels, i);
    assert Steps(states[i], labels[i], states[i + 1]);
    RefinesIffNoOpenClaim(states[i], labels[i]);
  }

  /** Every interleaving of claim transactions with each other and with all other statements is a run of
      the machine that claims atomically, if and only if no recovery in it meets an open claim of the name
      it recovers. */
  lemma SkipLockedRefinesAtomicClaiming(states: seq<Sys>, labels: seq<Label>)
    requires Run(states, labels)
    ensures IsAtomicRun(states, labels) <==> NoOpenClaims(states, labels)
  {
    forall i {:trigger labels[i]} | 0 <= i < |labels|
      ensures IsAtomicStep(states[i], labels[i], states[i + 1]) <==> NoOpenClaim(states[i], labels[i])
    {
      AtomicAt(states, labels, i);
    }
  }

  /** Open claims are of different rows, in every run at all. */
  lemma OpenClaimsDiffer(states: seq<Sys>, labels: seq<Label>, i: nat, j: nat, k: nat)
    requires Run(states, labels) && i < |states| && IsLock(states[i].claims, j) && IsLock(states[i].claims, k)
    ensures states[i].claims[j].snap.id == states[i].claims[k].snap.id ==> j == k
  {
    BaseRun(states, labels, i);
  }

  /** Where every instance has a name to itself, the condition is met. */
  lemma SettledIsAtomic(states: seq<Sys>, labels: seq<Label>)
    requires Run(states, labels)
    requires forall i | 0 <= i < |labels| && labels[i].Spawn? :: forall q | q in states[i].procs :: states[i].procs[q].name != labels[i].name
    ensures IsAtomicRun(states, labels)
  {
    SkipLockedRefinesAtomicClaiming(states, labels);
  }
}
