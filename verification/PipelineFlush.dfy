/**
 The way of one batch through the consumer (src/sf2loki/app.py, `_consume` and `_flush`): exactly when it is flushed,
 that only an admitted batch is pushed, and what becomes of one that the governor turns away.
 */
module PipelineFlush {
  import opened Pipeline
  import opened PipelineCauses
  import opened PipelineSafety
  import Q = BoundedQueue
  import Sink = LokiSink
  import Verdicts = LokiSinkVerdicts

  // ----- when a batch is flushed -----

  /** An absorbed item starts a flush exactly if it fills the batch or is the last sentinel; only data is added. */
  ghost predicate FlushesWhenFull(cfg: Config, s: Lane)
    requires Enabled(cfg, s, Absorb)
  {
    var t, item := Apply(cfg, s, Absorb), s.io.taker.item;
    && t.basket.entries == s.basket.entries + (if item.Data? then [item] else [])
    && (t.phase.Flushing? <==> if item.Data? then !Room(cfg, t.basket.entries) else Q.Live(t.io) == {})
  }

  lemma {:induction false} FullExactly(cfg: Config, b: Basket, item: Event)
    requires b.bytes == Weight(b.entries) && item.Data?
    ensures var (more, flush) := Absorbed(cfg, b, item); more.entries == b.entries + [item] && (flush <==> !Room(cfg, more.entries))
  {
    WeightAppend(b.entries, item);
  }

  lemma {:induction false} AbsorbFlushes(cfg: Config, s: Lane)
    requires s.basket.bytes == Weight(s.basket.entries) && Enabled(cfg, s, Absorb)
    requires PhaseInv(Apply(cfg, s, Absorb))
    ensures FlushesWhenFull(cfg, s)
  {
    if s.io.taker.item.Data? {
      FullExactly(cfg, s.basket, s.io.taker.item);
    } else {
      assert s.basket.entries + [] == s.basket.entries;
    }
  }

  /** So it is in every reachable lane: by count, by weight, or because all sources have ended. */
  lemma {:induction false} FlushesExactly(cfg: Config, n: nat, run: seq<Action>)
    requires Legal(cfg, Opening(n), run) && Enabled(cfg, Final(cfg, Opening(n), run), Absorb)
    ensures FlushesWhenFull(cfg, Final(cfg, Opening(n), run))
  {
    OpeningInv(cfg, n);
    RunKeepsInv(cfg, Opening(n), run);
    BatchesAreBounded(cfg, n, run);
    AbsorbKeepsPhase(cfg, Final(cfg, Opening(n), run));
    AbsorbFlushes(cfg, Final(cfg, Opening(n), run));
  }

  // ----- when the lane returns -----

  /** A lane collects while a source is live, flushes for the last time when none is, and returns only after that. */
  predicate ReturnsInTime(s: Lane) {
    match s.phase
    case Collecting => s.basket.active != 0
    case Done => s.basket.active == 0
    case Dead => true
    case _ => s.phase.last <==> s.basket.active == 0
  }

  lemma {:induction false} StepReturnsInTime(cfg: Config, s: Lane, a: Action)
    requires Enabled(cfg, s, a) && ReturnsInTime(s)
    ensures ReturnsInTime(Apply(cfg, s, a))
  {
  }

  lemma {:induction false} RunReturnsInTime(cfg: Config, s: Lane, run: seq<Action>)
    requires Legal(cfg, s, run) && ReturnsInTime(s)
    ensures ReturnsInTime(Final(cfg, s, run))
    decreases |run|
  {
    if |run| > 0 {
      StepReturnsInTime(cfg, s, run[0]);
      RunReturnsInTime(cfg, Apply(cfg, s, run[0]), run[1..]);
    }
  }

  /** Collecting while a source is live, done only when none is; and the step that closes the last batch returns. */
  ghost predicate ReturnsWhenAllEnded(cfg: Config, s: Lane) {
    var ended := Q.Live(s.io) == {};
    && (s.phase.Collecting? ==> !ended)
    && (s.phase.Done? ==> ended)
    && (Enabled(cfg, s, Commit) ==> (Apply(cfg, s, Commit).phase.Done? <==> ended))
    && (Enabled(cfg, s, Abandon) ==> (Apply(cfg, s, Abandon).phase.Done? <==> ended))
  }

  lemma {:induction false} LastBatchReturns(cfg: Config, s: Lane)
    requires s.basket.active == |Q.Live(s.io)| && ReturnsInTime(s)
    ensures ReturnsWhenAllEnded(cfg, s)
  {
  }

  /** In every run of a lane with sources: once the last sentinel is taken the lane finishes the batch in hand and returns. */
  lemma {:induction false} ReturnsExactly(cfg: Config, n: nat, run: seq<Action>)
    requires n > 0 && Legal(cfg, Opening(n), run)
    ensures ReturnsWhenAllEnded(cfg, Final(cfg, Opening(n), run))
  {
    OpeningInv(cfg, n);
    RunKeepsInv(cfg, Opening(n), run);
    RunReturnsInTime(cfg, Opening(n), run);
    LastBatchReturns(cfg, Final(cfg, Opening(n), run));
  }

  // ----- where a flush leads -----

  /** A batch with real entries that is admitted is pushed next; any other commits without a push, or is empty. */
  lemma {:induction false} AdmittedIsPushed(cfg: Config, s: Lane, admitted: bool, loki: Sink.Loki)
    requires Enabled(cfg, s, Flush(admitted))
    ensures var t := Apply(cfg, s, Flush(admitted));
            && (Enabled(cfg, t, Push(loki)) <==> admitted && Reals(s.basket.entries) != [])
            && (Enabled(cfg, t, Commit) <==> s.basket.entries != [] && (!admitted || Reals(s.basket.entries) == []))
  {
  }

  /** What a lane whose batch was pushed does next, by whether it was settled. */
  predicate GoesOn(cfg: Config, s: Lane, t: Lane, settled: bool) {
    && (Enabled(cfg, t, Commit) <==> settled)
    && (Enabled(cfg, t, Retry) <==> !settled) && (Enabled(cfg, t, Abandon) <==> !settled)
    && (!settled ==> Apply(cfg, t, Retry) == s)
  }

  lemma {:induction false} VerdictLeads(cfg: Config, s: Lane, report: Sink.Report<Event>)
    requires s.phase.Pushing? && s.io.taker.Busy?
    ensures GoesOn(cfg, s, Answered(s, report), !report.verdict.Retryable?)
  {
  }

  /** A pushed batch is committed next exactly if every POST got a conclusive answer; otherwise a retry pushes it whole again. */
  lemma {:induction false} ConclusiveIsCommitted(cfg: Config, s: Lane, loki: Sink.Loki)
    requires PhaseInv(s) && Enabled(cfg, s, Push(loki))
    ensures var report := Sink.Push(Reals(s.basket.entries), loki, 0);
            GoesOn(cfg, s, Apply(cfg, s, Push(loki)), Verdicts.AllConclusive(report.posts))
  {
    Verdicts.VerdictExactly(Reals(s.basket.entries), loki, 0);
    VerdictLeads(cfg, s, Sink.Push(Reals(s.basket.entries), loki, 0));
  }

  /** The governor's answer to the last flush. */
  function LastAdmission(note: bool, run: seq<Action>): bool
    decreases |run|
  {
    if |run| == 0 then note else LastAdmission(if run[0].Flush? then run[0].admitted else note, run[1..])
  }

  predicate PushesAdmitted(s: Lane, note: bool) {
    s.phase.Pushing? || s.phase.BackingOff? ==> note
  }

  lemma {:induction false} RunPushesAdmitted(cfg: Config, s: Lane, run: seq<Action>, note: bool)
    requires Legal(cfg, s, run) && PushesAdmitted(s, note)
    ensures PushesAdmitted(Final(cfg, s, run), LastAdmission(note, run))
    decreases |run|
  {
    if |run| > 0 {
      RunPushesAdmitted(cfg, Apply(cfg, s, run[0]), run[1..], if run[0].Flush? then run[0].admitted else note);
    }
  }

  /** In every run, whenever a batch is pushed, first or again, the governor admitted it. */
  lemma {:induction false} OnlyAdmittedIsPushed(cfg: Config, n: nat, run: seq<Action>, loki: Sink.Loki)
    requires Legal(cfg, Opening(n), run) && Enabled(cfg, Final(cfg, Opening(n), run), Push(loki))
    ensures LastAdmission(false, run)
  {
    RunPushesAdmitted(cfg, Opening(n), run, false);
  }

  // ----- a batch turned away -----

  /** Every entry, in order, is dropped because the budget is spent. */
  predicate DropsEach(entries: seq<Event>, ends: seq<End>) {
    |ends| == |entries| && forall i :: 0 <= i < |entries| ==> ends[i] == OverBudget(entries[i])
  }

  lemma {:induction false} OverBudgetDropsEach(events: seq<Event>)
    ensures DropsEach(events, OverBudgetAll(events))
  {
    if events != [] {
      OverBudgetDropsEach(events[1..]);
    }
  }

  /** The batch is about to be committed, its real entries dropped, or the consumer died committing it. */
  predicate TurnedAway(s: Lane, closed: seq<Closed>, batch: seq<Event>) {
    (s.phase.Committing? || s.phase.Dead?) && s.closed == closed && s.basket.entries == batch && DropsEach(Reals(batch), s.ends)
  }

  /** The batch was committed with all its real entries dropped for the budget. */
  predicate DroppedNext(closed: seq<Closed>, later: seq<Closed>, batch: seq<Event>) {
    && closed < later && later[|closed|].Settled?
    && later[|closed|].batch == batch && DropsEach(Reals(batch), later[|closed|].ends)
  }

  /** No push before the first commit. */
  predicate NoPushBeforeCommit(run: seq<Action>) {
    forall i :: 0 <= i < |run| && run[i].Push? ==> exists j :: 0 <= j < i && run[j].Commit?
  }

  lemma {:induction false} ClosedGrows(cfg: Config, s: Lane, run: seq<Action>)
    requires Legal(cfg, s, run)
    ensures s.closed <= Final(cfg, s, run).closed
    decreases |run|
  {
    if |run| > 0 {
      ClosedGrows(cfg, Apply(cfg, s, run[0]), run[1..]);
    }
  }

  lemma {:induction false} TurnedAwayStep(cfg: Config, s: Lane, a: Action, closed: seq<Closed>, batch: seq<Event>)
    requires TurnedAway(s, closed, batch) && Enabled(cfg, s, a) && Inv(cfg, s)
    ensures !a.Push?
    ensures a.Commit? ==> DroppedNext(closed, Apply(cfg, s, a).closed, batch)
    ensures !a.Commit? ==> TurnedAway(Apply(cfg, s, a), closed, batch)
  {
  }

  lemma {:induction false} NoPushFirst(run: seq<Action>)
    requires |run| > 0 && !run[0].Push? && (run[0].Commit? || NoPushBeforeCommit(run[1..]))
    ensures NoPushBeforeCommit(run)
  {
    forall i | 0 <= i < |run| && run[i].Push?
      ensures exists j :: 0 <= j < i && run[j].Commit?
    {
      if !run[0].Commit? {
        assert run[1..][i - 1].Push?;
        var j :| 0 <= j < i - 1 && run[1..][j].Commit?;
        assert run[j + 1].Commit?;
      }
    }
  }

  lemma {:induction false} TurnedAwayRun(cfg: Config, s: Lane, run: seq<Action>, closed: seq<Closed>, batch: seq<Event>)
    requires TurnedAway(s, closed, batch) && Legal(cfg, s, run) && Inv(cfg, s)
    ensures NoPushBeforeCommit(run)
    ensures var t := Final(cfg, s, run); TurnedAway(t, closed, batch) || DroppedNext(closed, t.closed, batch)
    decreases |run|
  {
    if |run| > 0 {
      var t := Apply(cfg, s, run[0]);
      TurnedAwayStep(cfg, s, run[0], closed, batch);
      StepKeepsInv(cfg, s, run[0]);
      if run[0].Commit? {
        ClosedGrows(cfg, t, run[1..]);
      } else {
        TurnedAwayRun(cfg, t, run[1..], closed, batch);
      }
      NoPushFirst(run);
    }
  }

  /**
   A batch that the governor turns away is not pushed, in any continuation of any run: its real entries are dropped, each
   counted against the budget and in order, and its tokens are committed with it unless the commit fails.
   */
  lemma {:induction false} TurnedAwayIsDropped(cfg: Config, n: nat, before: seq<Action>, after: seq<Action>)
    requires Legal(cfg, Opening(n), before) && Enabled(cfg, Final(cfg, Opening(n), before), Flush(false))
    requires Reals(Final(cfg, Opening(n), before).basket.entries) != []
    requires Legal(cfg, Apply(cfg, Final(cfg, Opening(n), before), Flush(false)), after)
    ensures NoPushBeforeCommit(after)
    ensures var s := Final(cfg, Opening(n), before);
            var t := Final(cfg, Apply(cfg, s, Flush(false)), after);
            && (TurnedAway(t, s.closed, s.basket.entries) || DroppedNext(s.closed, t.closed, s.basket.entries))
            && t.committed == LastTokens(SettledOf(t.closed))
  {
    var s := Final(cfg, Opening(n), before);
    OpeningInv(cfg, n);
    RunKeepsInv(cfg, Opening(n), before);
    StepKeepsInv(cfg, s, Flush(false));
    OverBudgetDropsEach(Reals(s.basket.entries));
    var t := Apply(cfg, s, Flush(false));
    TurnedAwayRun(cfg, t, after, s.closed, s.basket.entries);
    RunKeepsInv(cfg, t, after);
  }
}
