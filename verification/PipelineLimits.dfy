/**
 Where the pipeline's promise ends: a batch abandoned on shutdown is not settled, yet the consumer keeps draining and a
 later flush commits past it.
 */
module PipelineLimits {
  import opened Pipeline
  import Q = BoundedQueue
  import Sink = LokiSink

  ghost predicate Reaches(cfg: Config, s: Lane, t: Lane) {
    exists run :: Legal(cfg, s, run) && Final(cfg, s, run) == t
  }

  lemma {:induction false} Join(cfg: Config, s: Lane, run: seq<Action>, a: Action)
    requires Legal(cfg, s, run) && Enabled(cfg, Final(cfg, s, run), a)
    ensures Legal(cfg, s, run + [a]) && Final(cfg, s, run + [a]) == Apply(cfg, Final(cfg, s, run), a)
    decreases |run|
  {
    if |run| == 0 {
      assert run + [a] == [a];
      assert [a][1..] == [];
      assert Legal(cfg, Apply(cfg, s, a), []);
    } else {
      Join(cfg, Apply(cfg, s, run[0]), run[1..], a);
      assert (run + [a])[1..] == run[1..] + [a];
    }
  }

  lemma {:induction false} Step(cfg: Config, s: Lane, t: Lane, a: Action)
    requires Reaches(cfg, s, t) && Enabled(cfg, t, a)
    ensures Reaches(cfg, s, Apply(cfg, t, a))
  {
    var run :| Legal(cfg, s, run) && Final(cfg, s, run) == t;
    Join(cfg, s, run, a);
  }

  /** One source, nothing in flight. */
  predicate Idle(s: Lane) {
    && s.phase.Collecting? && s.basket.entries == []
    && s.io.taker.Ready? && s.io.items == [] && |s.io.hands| == |s.io.yielded| == 1 && s.io.hands[0].Fetching?
  }

  /** No limits, and every entry is a batch of its own. */
  const SIMPLE: Config := Config(0, 0, 1, 1000000, false, 0)

  /** The lane once entry `e` is about to be pushed. */
  function Offered(s: Lane, e: Entry): Lane
    requires Idle(s)
  {
    var event := Q.Data(0, e, 0);
    s.(io := Q.Queue([], s.io.bytes, [Q.Fetching], Q.Busy, [s.io.yielded[0] + [e]], s.io.taken + [event]),
       basket := Basket([event], s.basket.bytes + e.line + ENTRY_OVERHEAD, true, s.basket.active),
       phase := Pushing(false))
  }

  lemma {:induction false} Produced(s0: Lane, s: Lane, e: Entry) returns (t: Lane)
    requires Reaches(SIMPLE, s0, s) && Idle(s) && !e.only
    ensures Reaches(SIMPLE, s0, t)
    ensures t == s.(io := s.io.(items := [Q.Data(0, e, 0)], yielded := [s.io.yielded[0] + [e]]))
  {
    var s1 := Apply(SIMPLE, s, Produce(Q.Yield(0, e, 0)));
    Step(SIMPLE, s0, s, Produce(Q.Yield(0, e, 0)));
    var s2 := Apply(SIMPLE, s1, Produce(Q.Charge(0)));
    Step(SIMPLE, s0, s1, Produce(Q.Charge(0)));
    t := Apply(SIMPLE, s2, Produce(Q.Put(0)));
    Step(SIMPLE, s0, s2, Produce(Q.Put(0)));
    assert t.io.hands == s.io.hands;
  }

  lemma {:induction false} SingleIsReal(event: Event)
    requires IsReal(event)
    ensures Reals([event]) == [event]
  {
    assert [event][..0] == [];
  }

  lemma {:induction false} OfferedIsReached(s0: Lane, s: Lane, e: Entry)
    requires Reaches(SIMPLE, s0, s) && Idle(s) && !e.only
    ensures Reaches(SIMPLE, s0, Offered(s, e))
  {
    var s3 := Produced(s0, s, e);
    var s4 := Apply(SIMPLE, s3, Get);
    Step(SIMPLE, s0, s3, Get);
    var s5 := Apply(SIMPLE, s4, Absorb);
    Step(SIMPLE, s0, s4, Absorb);
    assert s.io.hands == [Q.Fetching];
    FlushOffers(s0, s, e, s5);
  }

  lemma {:induction false} FlushOffers(s0: Lane, s: Lane, e: Entry, t: Lane)
    requires Idle(s) && !e.only && Reaches(SIMPLE, s0, t) && t == Offered(s, e).(phase := Flushing(false))
    ensures Reaches(SIMPLE, s0, Offered(s, e))
  {
    SingleIsReal(Q.Data(0, e, 0));
    Step(SIMPLE, s0, t, Flush(true));
  }

  lemma {:induction false} AbandonIsReached(s0: Lane, s: Lane, e: Entry) returns (t: Lane)
    requires Reaches(SIMPLE, s0, s) && Idle(s) && !e.only
    ensures Reaches(SIMPLE, s0, t) && Idle(t)
    ensures t.io.yielded == [s.io.yielded[0] + [e]] && t.closed == s.closed + [Abandoned([Q.Data(0, e, 0)])] && t.committed == s.committed
  {
    OfferedIsReached(s0, s, e);
    var s1 := Offered(s, e);
    SingleIsReal(Q.Data(0, e, 0));
    var down: Sink.Loki := _ => Sink.Exhausted;
    Step(SIMPLE, s0, s1, Push(down));
    Step(SIMPLE, s0, Apply(SIMPLE, s1, Push(down)), Abandon);
    t := Apply(SIMPLE, Apply(SIMPLE, s1, Push(down)), Abandon);
  }

  /** The lane once Loki has taken entry `e`. */
  lemma {:induction false} Taken(s0: Lane, s: Lane, e: Entry) returns (t: Lane)
    requires Reaches(SIMPLE, s0, s) && Idle(s) && !e.only
    ensures Reaches(SIMPLE, s0, t) && t == Offered(s, e).(phase := Committing(false), ends := [Accepted([Q.Data(0, e, 0)])])
  {
    OfferedIsReached(s0, s, e);
    var event := Q.Data(0, e, 0);
    SingleIsReal(event);
    var up: Sink.Loki := _ => Sink.Status(204);
    t := Apply(SIMPLE, Offered(s, e), Push(up));
    Step(SIMPLE, s0, Offered(s, e), Push(up));
    var leaves := [Sink.Accepted([event])];
    assert leaves[1..] == [];
    assert FromLeaves(leaves) == [Accepted([event])];
  }

  lemma {:induction false} NextIsCommitted(s0: Lane, s: Lane, e: Entry)
    requires Reaches(SIMPLE, s0, s) && Idle(s) && !e.only && s.committed == map[]
    ensures exists t ::
              && Reaches(SIMPLE, s0, t)
              && t.io.yielded == [s.io.yielded[0] + [e]]
              && t.committed == map[e.key := e.value]
              && t.closed == s.closed + [Settled([Q.Data(0, e, 0)], [Accepted([Q.Data(0, e, 0)])])]
  {
    var taken := Taken(s0, s, e);
    Step(SIMPLE, s0, taken, Commit);
    var t := Apply(SIMPLE, taken, Commit);
    assert LastTokens(taken.basket.entries) == map[e.key := e.value] by {
      assert taken.basket.entries[..0] == [];
      assert LastTokens([]) == map[];
    }
    assert Reaches(SIMPLE, s0, t);
  }

  /** Loki is down for the first entry while stopping, and back for the second of the same key. */
  lemma {:induction false} AbandonedIsSkipped(lost: Entry, next: Entry)
    requires !lost.only && !next.only && lost.key == next.key && lost != next
    ensures exists t ::
              && Reaches(SIMPLE, Opening(1), t)
              && t.io.yielded == [[lost, next]]
              && t.committed == map[next.key := next.value]
              && t.closed == [Abandoned([Q.Data(0, lost, 0)]), Settled([Q.Data(0, next, 0)], [Accepted([Q.Data(0, next, 0)])])]
  {
    var s0 := Opening(1);
    assert Reaches(SIMPLE, s0, s0) by {
      assert Final(SIMPLE, s0, []) == s0;
    }
    var s := AbandonIsReached(s0, s0, lost);
    NextIsCommitted(s0, s, next);
    assert s.io.yielded[0] + [next] == [lost, next];
  }
}
