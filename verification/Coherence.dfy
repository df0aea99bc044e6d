/** What holders believe. A state is coherent when every task is held at most once, and what its holder
    believes about it is true. Two kinds of step can destroy this, and each does so under a condition
    that can be read off the tables before the step: a watchdog failing a task that somebody still
    holds, and a recovery requeueing a task that a live process of that name holds. When that leads to
    two holders of one task is another question, which Exclusion answers. */
module Coherence {
  import opened Tasks
  import opened Protocol
  import opened Unconditional

  /** A lock apart, a held task is running (or cancelled while running) for its holder, at the
      attempt the holder knows about. */
  predicate HolderOk(tasks: map<nat, Task>, procs: map<nat, Proc>, c: Claim) {
    && c.snap.id in tasks && c.pid in procs
    && var r := tasks[c.snap.id];
    && (c.stage.Locked? || (r.status in {Running, Cancelled} && r.processedBy == Some(procs[c.pid].name)))
    && c.snap.retryCount == r.retryCount && c.snap.processedBy == r.processedBy
  }

  ghost predicate HeldOnce(claims: map<nat, Claim>) {
    forall j, k | j in claims && k in claims && claims[j].snap.id == claims[k].snap.id :: j == k
  }

  ghost predicate HoldersOk(tasks: map<nat, Task>, procs: map<nat, Proc>, claims: map<nat, Claim>) {
    forall k | k in claims :: HolderOk(tasks, procs, claims[k])
  }

  ghost predicate Coherent(s: Sys) {
    HoldersOk(s.db.tasks, s.procs, s.claims) && HeldOnce(s.claims)
  }

  /** The condition a caller can check before the step. */
  ghost predicate Safe(s: Sys, l: Label) {
    && (l.WatchFail? ==> !Held(s, l.snap.id))
    && (l.Spawn? && l.recovered ==>
          forall k | k in s.claims && !s.claims[k].stage.Locked? && s.claims[k].snap.id in s.db.tasks ::
            !IsOrphanOf(s.db.tasks[s.claims[k].snap.id], l.name))
  }

  /** A safe step never takes a held task away from its holder. */
  lemma HeldWrite(s: Sys, l: Label, k: nat)
    requires Base(s) && Coherent(s) && Enabled(s, l) && Safe(s, l)
    requires k in s.claims && k in ClaimsAfter(s, l) && l != Commit(k)
    ensures var w := WriteTo(s, l, s.db.tasks[s.claims[k].snap.id]);
            w.Keep? || (!s.claims[k].stage.Locked? && (w.Begin? || w.Abandon?))
  {
    var id := s.claims[k].snap.id;
    if s.claims[k].stage.Locked? {
      assert IsLock(s.claims, k);
      LockedKeeps(s, l, k);
    } else if l.WatchFail? {
      assert Held(s, id);
    } else {
      assert HolderOk(s.db.tasks, s.procs, s.claims[k]);
    }
  }

  /** A row that can be locked is held by nobody. */
  lemma LockableIsFree(s: Sys, l: Label)
    requires Base(s) && Coherent(s) && Enabled(s, l) && l.LockRow?
    ensures forall k | k in s.claims :: s.claims[k].snap.id != l.id
  {
    forall k | k in s.claims ensures s.claims[k].snap.id != l.id {
      assert HolderOk(s.db.tasks, s.procs, s.claims[k]);
      assert s.claims[k].stage.Locked? ==> s.claims[k].snap.id in LockedIds(s);
    }
  }

  lemma HeldOnceKept(s: Sys, l: Label)
    requires Base(s) && Coherent(s) && Enabled(s, l)
    ensures HeldOnce(ClaimsAfter(s, l))
  {
    var claims' := ClaimsAfter(s, l);
    forall j, k | j in claims' && k in claims' && claims'[j].snap.id == claims'[k].snap.id ensures j == k {
      ClaimOrigin(s, l, j);
      ClaimOrigin(s, l, k);
      if l.LockRow? {
        LockableIsFree(s, l);
        assert RowOk(l.id, s.db.tasks[l.id]);
      }
    }
  }

  lemma ProcKept(s: Sys, l: Label, k: nat)
    requires Enabled(s, l) && k in s.claims && k in ClaimsAfter(s, l) && s.claims[k].pid in s.procs
    ensures s.claims[k].pid in ProcsAfter(s, l) && ProcsAfter(s, l)[s.claims[k].pid].name == s.procs[s.claims[k].pid].name
  {
  }

  lemma RowKept(s: Sys, l: Label, id: nat)
    requires RowsOk(s.db.tasks, s.db.nextId) && Enabled(s, l) && id in s.db.tasks
    ensures id in RowWrites(s.db.tasks, s, l) && RowWrites(s.db.tasks, s, l)[id] == Do(s.db.tasks[id], WriteTo(s, l, s.db.tasks[id]))
  {
    assert RowOk(id, s.db.tasks[id]);
  }

  lemma NewHolderOk(s: Sys, l: Label)
    requires Base(s) && Coherent(s) && Enabled(s, l) && (l.LockRow? || l.Commit?)
    ensures var k := if l.LockRow? then s.nextClaim else l.k;
            HolderOk(RowWrites(s.db.tasks, s, l), s.procs, ClaimsAfter(s, l)[k])
  {
    var id := if l.LockRow? then l.id else s.claims[l.k].snap.id;
    assert l.Commit? ==> IsLock(s.claims, l.k);
    assert RowOk(id, s.db.tasks[id]);
    RowKept(s, l, id);
  }

  lemma HolderFollows(tasks: map<nat, Task>, tasks': map<nat, Task>, procs: map<nat, Proc>, procs': map<nat, Proc>,
                      c: Claim, c': Claim, w: Write)
    requires HolderOk(tasks, procs, c)
    requires c'.pid == c.pid && c'.snap == c.snap
    requires c'.stage.Locked? || !c.stage.Locked?
    requires c.pid in procs' && procs'[c.pid].name == procs[c.pid].name
    requires c.snap.id in tasks' && tasks'[c.snap.id] == Do(tasks[c.snap.id], w)
    requires w.Keep? || (!c.stage.Locked? && (w.Begin? || w.Abandon?))
    ensures HolderOk(tasks', procs', c')
  {
  }

  lemma OldHolderKept(s: Sys, l: Label, k: nat)
    requires Base(s) && Coherent(s) && Enabled(s, l) && Safe(s, l)
    requires k in ClaimsAfter(s, l) && !(l.LockRow? && k == s.nextClaim) && l != Commit(k)
    ensures HolderOk(RowWrites(s.db.tasks, s, l), ProcsAfter(s, l), ClaimsAfter(s, l)[k])
  {
    ClaimOrigin(s, l, k);
    var c := s.claims[k];
    ProcKept(s, l, k);
    RowKept(s, l, c.snap.id);
    HeldWrite(s, l, k);
    HolderFollows(s.db.tasks, RowWrites(s.db.tasks, s, l), s.procs, ProcsAfter(s, l),
                  c, ClaimsAfter(s, l)[k], WriteTo(s, l, s.db.tasks[c.snap.id]));
  }

  lemma HolderKept(s: Sys, l: Label, k: nat)
    requires Base(s) && Coherent(s) && Enabled(s, l) && Safe(s, l) && k in ClaimsAfter(s, l)
    ensures HolderOk(RowWrites(s.db.tasks, s, l), ProcsAfter(s, l), ClaimsAfter(s, l)[k])
  {
    if (l.LockRow? && k == s.nextClaim) || l == Commit(k) {
      NewHolderOk(s, l);
    } else {
      OldHolderKept(s, l, k);
    }
  }

  lemma CoherentKept(s: Sys, l: Label)
    requires Base(s) && Coherent(s) && Enabled(s, l) && Safe(s, l)
    ensures Coherent(Apply(s, l))
  {
    HeldOnceKept(s, l);
    forall k | k in ClaimsAfter(s, l)
      ensures HolderOk(RowWrites(s.db.tasks, s, l), ProcsAfter(s, l), ClaimsAfter(s, l)[k])
    {
      HolderKept(s, l, k);
    }
  }

  /** Some holder whose task is about to be taken from it. */
  lemma UnsafeHolder(s: Sys, l: Label) returns (k: nat)
    requires Base(s) && Coherent(s) && Enabled(s, l) && !Safe(s, l)
    ensures (l.WatchFail? || l.Spawn?) && k in s.claims && !s.claims[k].stage.Locked? && s.claims[k].snap.id in s.db.tasks
    ensures Do(s.db.tasks[s.claims[k].snap.id], WriteTo(s, l, s.db.tasks[s.claims[k].snap.id])).status in {Pending, Failed}
  {
    k :| k in s.claims && if l.WatchFail? then s.claims[k].snap.id == l.snap.id
         else !s.claims[k].stage.Locked? && IsOrphanOf(s.db.tasks[s.claims[k].snap.id], l.name);
    var id := s.claims[k].snap.id;
    assert RowOk(id, s.db.tasks[id]) && HolderOk(s.db.tasks, s.procs, s.claims[k]);
    assert s.claims[k].stage.Locked? ==> id in LockedIds(s);
  }

  lemma UnsafeBreaks(s: Sys, l: Label)
    requires Base(s) && Coherent(s) && Enabled(s, l) && !Safe(s, l)
    ensures !HoldersOk(RowWrites(s.db.tasks, s, l), ProcsAfter(s, l), ClaimsAfter(s, l))
  {
    var k := UnsafeHolder(s, l);
    RowKept(s, l, s.claims[k].snap.id);
    assert ClaimsAfter(s, l) == s.claims;
    assert !HolderOk(RowWrites(s.db.tasks, s, l), ProcsAfter(s, l), s.claims[k]);
  }

  /** From a coherent state, a step leads to a coherent state if and only if it is safe. */
  lemma CoherentIffSafe(s: Sys, l: Label)
    requires Base(s) && Coherent(s) && Enabled(s, l)
    ensures Coherent(Apply(s, l)) <==> Safe(s, l)
  {
    if Safe(s, l) {
      CoherentKept(s, l);
    } else {
      UnsafeBreaks(s, l);
    }
  }

  ghost predicate AllCoherent(states: seq<Sys>) {
    forall i | 0 <= i < |states| :: Coherent(states[i])
  }

  ghost predicate AllSafe(states: seq<Sys>, labels: seq<Label>)
    requires |states| == |labels| + 1
  {
    forall i | 0 <= i < |labels| :: Safe(states[i], labels[i])
  }

  lemma {:induction false} CoherentPrefix(states: seq<Sys>, labels: seq<Label>, n: nat)
    requires Run(states, labels) && n < |states|
    requires forall i | 0 <= i < n :: Safe(states[i], labels[i])
    ensures Coherent(states[n])
  {
    if n > 0 {
      CoherentPrefix(states, labels, n - 1);
      BaseRun(states, labels, n - 1);
      assert Steps(states[n - 1], labels[n - 1], states[n - 1 + 1]);
      CoherentKept(states[n - 1], labels[n - 1]);
    }
  }

  /** A whole run, whatever it interleaves, is coherent throughout if and only if it never takes
      an unsafe step. */
  lemma CoherentThroughout(states: seq<Sys>, labels: seq<Label>)
    requires Run(states, labels)
    ensures AllCoherent(states) <==> AllSafe(states, labels)
  {
    if AllSafe(states, labels) {
      forall i | 0 <= i < |states| ensures Coherent(states[i]) {
        CoherentPrefix(states, labels, i);
      }
    }
    if AllCoherent(states) {
      forall i | 0 <= i < |labels| ensures Safe(states[i], labels[i]) {
        BaseRun(states, labels, i);
        assert Steps(states[i], labels[i], states[i + 1]);
        assert Coherent(states[i + 1]);
        CoherentIffSafe(states[i], labels[i]);
      }
    }
  }
}
