/** Exactly when the books of a task go wrong, whatever interleaving led there: which step takes its
    retry counter back, and which files a second dead letter for it. */
module Drift {
  import opened Tasks
  import opened Protocol
  import opened Unconditional
  import opened Coherence
  import opened Settled

  /** A retry is recorded from a snapshot that is at least two attempts old. */
  predicate StaleRetry(s: Sys, l: Label, id: nat) {
    && Fails(s, l, id) && id in s.db.tasks
    && HasRetriesLeft(Failing(s, l)) && Failing(s, l).retryCount + 1 < s.db.tasks[id].retryCount
  }

  /** The last failure is recorded of a task that has a dead letter already. */
  predicate LateLetter(s: Sys, l: Label, id: nat) {
    Fails(s, l, id) && !HasRetriesLeft(Failing(s, l)) && DeadCount(s.db.dead, id) >= 1
  }

  // ---------------------------------------------------------------- the retry counter

  lemma CounterWritten(r: Task, w: Write)
    ensures Do(r, w).retryCount < r.retryCount <==> w.FailAs? && HasRetriesLeft(w.snap) && w.snap.retryCount + 1 < r.retryCount
  {
  }

  lemma CounterGoesBackIff(s: Sys, l: Label, id: nat)
    requires Base(s) && Enabled(s, l) && id in s.db.tasks
    ensures RowAfter(s.db.tasks[id], s, l).retryCount < s.db.tasks[id].retryCount <==> StaleRetry(s, l, id)
  {
    assert RowOk(id, s.db.tasks[id]);
    CounterWritten(s.db.tasks[id], WriteTo(s, l, s.db.tasks[id]));
    FailsAs(s, l, s.db.tasks[id]);
  }

  lemma CounterStep(states: seq<Sys>, labels: seq<Label>, i: nat, id: nat)
    requires Run(states, labels) && i < |labels| && id in states[i].db.tasks
    ensures id in states[i + 1].db.tasks
    ensures states[i + 1].db.tasks[id].retryCount < states[i].db.tasks[id].retryCount <==> StaleRetry(states[i], labels[i], id)
  {
    BaseRun(states, labels, i);
    assert Steps(states[i], labels[i], states[i + 1]);
    RowKept(states[i], labels[i], id);
    CounterGoesBackIff(states[i], labels[i], id);
  }

  ghost predicate Grows(before: map<nat, Task>, after: map<nat, Task>, id: nat) {
    id in before ==> id in after && before[id].retryCount <= after[id].retryCount
  }

  lemma CounterNext(states: seq<Sys>, labels: seq<Label>, i: nat, id: nat)
    requires Run(states, labels) && NoStaleRetry(states, labels, id) && i < |labels|
    ensures Grows(states[i].db.tasks, states[i + 1].db.tasks, id)
  {
    assert !StaleRetry(states[i], labels[i], id);
    if id in states[i].db.tasks { CounterStep(states, labels, i, id); }
  }

  ghost predicate NeverBack(states: seq<Sys>, id: nat) {
    forall i, j | 0 <= i <= j < |states| :: Grows(states[i].db.tasks, states[j].db.tasks, id)
  }

  ghost predicate NoStaleRetry(states: seq<Sys>, labels: seq<Label>, id: nat)
    requires |states| == |labels| + 1
  {
    forall i {:trigger labels[i]} | 0 <= i < |labels| :: !StaleRetry(states[i], labels[i], id)
  }

  ghost predicate GrowsEach(states: seq<Sys>, id: nat) {
    forall i {:trigger states[i]} | 0 < i < |states| :: Grows(states[i - 1].db.tasks, states[i].db.tasks, id)
  }

  lemma {:induction false} GrowthChains(states: seq<Sys>, i: nat, j: nat, id: nat)
    requires GrowsEach(states, id) && i <= j < |states|
    ensures Grows(states[i].db.tasks, states[j].db.tasks, id)
    decreases j
  {
    if i < j {
      GrowthChains(states, i, j - 1, id);
      assert Grows(states[j - 1].db.tasks, states[j].db.tasks, id);
    }
  }

  lemma NeverBackIf(states: seq<Sys>, labels: seq<Label>, id: nat)
    requires Run(states, labels) && NoStaleRetry(states, labels, id)
    ensures GrowsEach(states, id)
  {
    forall i {:trigger states[i]} | 0 < i < |states| ensures Grows(states[i - 1].db.tasks, states[i].db.tasks, id) {
      CounterNext(states, labels, i - 1, id);
    }
  }

  lemma NotStaleIf(states: seq<Sys>, labels: seq<Label>, i: nat, id: nat)
    requires Run(states, labels) && i < |labels| && Grows(states[i].db.tasks, states[i + 1].db.tasks, id)
    ensures !StaleRetry(states[i], labels[i], id)
  {
    if id in states[i].db.tasks { CounterStep(states, labels, i, id); }
  }

  /** In a run, the retry counter of a task never goes back if and only if no retry of it is ever
      recorded from a snapshot two attempts old. */
  lemma NeverBackIffNoStaleRetry(states: seq<Sys>, labels: seq<Label>, id: nat)
    requires Run(states, labels)
    ensures NeverBack(states, id) <==> NoStaleRetry(states, labels, id)
  {
    if NoStaleRetry(states, labels, id) {
      NeverBackIf(states, labels, id);
      forall i, j | 0 <= i <= j < |states| ensures Grows(states[i].db.tasks, states[j].db.tasks, id) {
        GrowthChains(states, i, j, id);
      }
    }
    if NeverBack(states, id) {
      forall i {:trigger labels[i]} | 0 <= i < |labels| ensures !StaleRetry(states[i], labels[i], id) {
        NotStaleIf(states, labels, i, id);
      }
    }
  }

  // ---------------------------------------------------------------- the dead letters

  lemma LettersAre(s: Sys, l: Label, id: nat)
    requires Base(s) && Enabled(s, l)
    ensures DeadCount(DeadWrites(s, l), id) ==
              DeadCount(s.db.dead, id) + (if Fails(s, l, id) && !HasRetriesLeft(Failing(s, l)) then 1 else 0)
  {
    if l.Fail? || l.WatchFail? {
      DeadCountPush(s.db.dead, Letter(Failing(s, l), l.err, s.clock), id);
    }
  }

  ghost predicate AtMostOneLetter(states: seq<Sys>, id: nat) {
    forall i | 0 <= i < |states| :: DeadCount(states[i].db.dead, id) <= 1
  }

  ghost predicate NoLateLetter(states: seq<Sys>, labels: seq<Label>, id: nat)
    requires |states| == |labels| + 1
  {
    forall i {:trigger labels[i]} | 0 <= i < |labels| :: !LateLetter(states[i], labels[i], id)
  }

  lemma LettersAt(states: seq<Sys>, labels: seq<Label>, i: nat, id: nat)
    requires Run(states, labels) && i < |labels| && DeadCount(states[i].db.dead, id) <= 1
    ensures DeadCount(states[i + 1].db.dead, id) > 1 <==> LateLetter(states[i], labels[i], id)
  {
    BaseRun(states, labels, i);
    assert Steps(states[i], labels[i], states[i + 1]);
    LettersAre(states[i], labels[i], id);
  }

  ghost predicate StaysOne(states: seq<Sys>, id: nat) {
    forall i {:trigger states[i]} | 0 < i < |states| ::
      DeadCount(states[i - 1].db.dead, id) <= 1 ==> DeadCount(states[i].db.dead, id) <= 1
  }

  lemma {:induction false} OneLetterSoFar(states: seq<Sys>, i: nat, id: nat)
    requires i < |states| && states[0] == INITIAL && StaysOne(states, id)
    ensures DeadCount(states[i].db.dead, id) <= 1
  {
    if i > 0 {
      OneLetterSoFar(states, i - 1, id);
    }
  }

  lemma OneLetterIf(states: seq<Sys>, labels: seq<Label>, id: nat)
    requires Run(states, labels) && NoLateLetter(states, labels, id)
    ensures StaysOne(states, id)
  {
    forall i {:trigger states[i]} | 0 < i < |states| && DeadCount(states[i - 1].db.dead, id) <= 1
      ensures DeadCount(states[i].db.dead, id) <= 1
    {
      assert !LateLetter(states[i - 1], labels[i - 1], id);
      LettersAt(states, labels, i - 1, id);
    }
  }

  /** In a run, a task has at most one dead letter throughout if and only if its last failure is never
      recorded again once it has one. */
  lemma OneLetterIffNoLateLetter(states: seq<Sys>, labels: seq<Label>, id: nat)
    requires Run(states, labels)
    ensures AtMostOneLetter(states, id) <==> NoLateLetter(states, labels, id)
  {
    if NoLateLetter(states, labels, id) {
      OneLetterIf(states, labels, id);
      forall i | 0 <= i < |states| ensures DeadCount(states[i].db.dead, id) <= 1 {
        OneLetterSoFar(states, i, id);
      }
    }
    if AtMostOneLetter(states, id) {
      forall i {:trigger labels[i]} | 0 <= i < |labels| ensures !LateLetter(states[i], labels[i], id) {
        assert DeadCount(states[i].db.dead, id) <= 1 && DeadCount(states[i + 1].db.dead, id) <= 1;
        LettersAt(states, labels, i, id);
      }
    }
  }

  /** Seen from the row: after a settled past, a second dead letter is filed exactly by a watchdog that
      fails a row that has failed. */
  lemma SecondLetterOfSettled(s: Sys, l: Label, id: nat)
    requires SettledInv(s) && Enabled(s, l) && id in s.db.tasks
    ensures DeadCount(DeadWrites(s, l), id) > 1 <==>
              l.WatchFail? && l.snap.id == id && !HasRetriesLeft(l.snap) && s.db.tasks[id].status == Failed
  {
    LettersAre(s, l, id);
    assert LedgerOk(s.db.tasks[id], s.tally[id], DeadCount(s.db.dead, id), HeldIn(s.claims, id));
    if l.Fail? { HeldBy(s, l.k); }
  }
}
