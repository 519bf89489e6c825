/**
 Why entries end (src/sf2loki/app.py, `_flush`): Loki took a batch with a 2xx answer, Loki refused an entry alone with
 400 or 413, or the governor turned the batch away. Nothing else settles an entry.
 */
module PipelineCauses {
  import opened Pipeline
  import Sink = LokiSink

  /** The step `a`, taken in state `s`, is a reason for `end`. */
  ghost predicate Caused(s: Lane, a: Action, end: End) {
    var pushed := Reals(s.basket.entries);
    match end
    case Accepted(batch) => a.Push? && Sink.Justified(Sink.Accepted(batch), Sink.Push(pushed, a.loki, 0).posts)
    case Refused(entry, code) => a.Push? && Sink.Justified(Sink.Dropped(entry, code), Sink.Push(pushed, a.loki, 0).posts)
    case OverBudget(entry) => a == Flush(false) && entry in pushed
  }

  /** Some step of the run is a reason for `end`. */
  ghost predicate CausedIn(cfg: Config, s: Lane, run: seq<Action>, end: End)
    requires Legal(cfg, s, run)
    decreases |run|
  {
    |run| > 0 && (Caused(s, run[0], end) || CausedIn(cfg, Apply(cfg, s, run[0]), run[1..], end))
  }

  /** Where entries ended so far, in order. */
  function AllEnds(s: Lane): seq<End> {
    EndsOf(s.closed) + s.ends
  }

  /** Every end beyond the first `n` has a reason in the run. */
  ghost predicate AllCaused(cfg: Config, s: Lane, run: seq<Action>, ends: seq<End>, n: nat)
    requires Legal(cfg, s, run)
  {
    forall i :: n <= i < |ends| ==> CausedIn(cfg, s, run, ends[i])
  }

  ghost predicate CausedAll(s: Lane, a: Action, ends: seq<End>) {
    forall i :: 0 <= i < |ends| ==> Caused(s, a, ends[i])
  }

  /** The ends that step `a` adds have their reason in it. */
  ghost predicate StepCauses(s: Lane, a: Action, before: seq<End>, after: seq<End>) {
    before <= after && forall i :: |before| <= i < |after| ==> Caused(s, a, after[i])
  }

  lemma {:induction false} LeavesFromReport(leaves: seq<Sink.Leaf<Event>>, i: nat)
    requires i < |FromLeaves(leaves)|
    ensures i < |leaves| && FromLeaves(leaves)[i] == FromLeaf(leaves[i])
  {
    if i > 0 {
      LeavesFromReport(leaves[1..], i - 1);
    }
  }

  lemma {:induction false} OverBudgetOf(events: seq<Event>, i: nat)
    requires i < |OverBudgetAll(events)|
    ensures i < |events| && OverBudgetAll(events)[i] == OverBudget(events[i])
  {
    if i > 0 {
      OverBudgetOf(events[1..], i - 1);
    }
  }

  lemma {:induction false} DeliveredIsCaused(s: Lane, loki: Sink.Loki)
    ensures CausedAll(s, Push(loki), FromLeaves(Sink.Push(Reals(s.basket.entries), loki, 0).leaves))
  {
    var report := Sink.Push(Reals(s.basket.entries), loki, 0);
    Sink.LeavesAreJustified(Reals(s.basket.entries), loki, 0);
    forall i | 0 <= i < |FromLeaves(report.leaves)|
      ensures Caused(s, Push(loki), FromLeaves(report.leaves)[i])
    {
      LeavesFromReport(report.leaves, i);
      assert Sink.Justified(report.leaves[i], report.posts);
      assert report.leaves[i].Accepted? ==> report.leaves[i] == Sink.Accepted(report.leaves[i].batch);
    }
  }

  /** A batch that Loki refuses for good is a single entry refused alone. */
  lemma {:induction false} RefusalIsCaused(s: Lane, loki: Sink.Loki, code: int)
    requires Sink.Push(Reals(s.basket.entries), loki, 0).verdict == Sink.Permanent(code)
    ensures CausedAll(s, Push(loki), RefusedAll(Reals(s.basket.entries), code))
  {
    var pushed := Reals(s.basket.entries);
    Sink.OnlySingleEntryIsPermanent(pushed, loki, 0);
    assert RefusedAll(pushed, code) == [Refused(pushed[0], code)] by {
      assert pushed[1..] == [];
    }
    assert pushed == [pushed[0]];
  }

  lemma {:induction false} PushCauses(s: Lane, loki: Sink.Loki)
    requires s.phase.Pushing?
    ensures var t := Answered(s, Sink.Push(Reals(s.basket.entries), loki, 0));
            t.closed == s.closed && (t.ends == s.ends || CausedAll(s, Push(loki), t.ends))
  {
    var report := Sink.Push(Reals(s.basket.entries), loki, 0);
    match report.verdict
    case Retryable =>
    case Permanent(code) => RefusalIsCaused(s, loki, code);
    case Delivered => DeliveredIsCaused(s, loki);
  }

  lemma {:induction false} FlushCauses(cfg: Config, s: Lane, admitted: bool)
    requires Enabled(cfg, s, Flush(admitted)) && s.ends == []
    ensures var t := Apply(cfg, s, Flush(admitted));
            t.closed == s.closed && CausedAll(s, Flush(admitted), t.ends)
  {
    var pushed := Reals(s.basket.entries);
    forall i | 0 <= i < |OverBudgetAll(pushed)|
      ensures !admitted ==> Caused(s, Flush(admitted), OverBudgetAll(pushed)[i])
    {
      OverBudgetOf(pushed, i);
    }
  }

  /** A step adds ends only for a reason; committing a batch moves them and abandoning one has none to move. */
  lemma {:induction false} EveryStepCauses(cfg: Config, s: Lane, a: Action)
    requires SettledInv(s) && Enabled(cfg, s, a)
    ensures StepCauses(s, a, AllEnds(s), AllEnds(Apply(cfg, s, a)))
  {
    var t := Apply(cfg, s, a);
    match a
    case Push(loki) => PushCauses(s, loki);
    case Flush(admitted) => FlushCauses(cfg, s, admitted);
    case Commit =>
      ClosedAppend(s.closed, Settled(s.basket.entries, s.ends));
      assert AllEnds(t) == AllEnds(s);
    case Abandon =>
      ClosedAppend(s.closed, Abandoned(s.basket.entries));
      assert AllEnds(t) == AllEnds(s);
    case _ => assert AllEnds(t) == AllEnds(s);
  }

  /** In every run, every entry that ended did so for a reason. */
  lemma {:induction false} EndsAreCaused(cfg: Config, s: Lane, run: seq<Action>)
    requires Inv(cfg, s) && Legal(cfg, s, run)
    ensures AllEnds(s) <= AllEnds(Final(cfg, s, run))
    ensures AllCaused(cfg, s, run, AllEnds(Final(cfg, s, run)), |AllEnds(s)|)
    decreases |run|
  {
    if |run| > 0 {
      var t, rest := Apply(cfg, s, run[0]), run[1..];
      StepKeepsInv(cfg, s, run[0]);
      EveryStepCauses(cfg, s, run[0]);
      EndsAreCaused(cfg, t, rest);
      var ends := AllEnds(Final(cfg, t, rest));
      forall i | |AllEnds(s)| <= i < |ends|
        ensures CausedIn(cfg, s, run, ends[i])
      {
        if i < |AllEnds(t)| {
          assert ends[i] == AllEnds(t)[i];
        } else {
          assert CausedIn(cfg, t, rest, ends[i]);
        }
      }
    }
  }

  /** Every drop has its own reason: an entry is never discarded because another one in its batch is poison. */
  lemma {:induction false} NoEntryIsDroppedForAnother(cfg: Config, n: nat, run: seq<Action>, i: nat)
    requires Legal(cfg, Opening(n), run) && i < |AllEnds(Final(cfg, Opening(n), run))|
    ensures CausedIn(cfg, Opening(n), run, AllEnds(Final(cfg, Opening(n), run))[i])
  {
    OpeningInv(cfg, n);
    EndsAreCaused(cfg, Opening(n), run);
  }
}
