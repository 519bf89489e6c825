/**
 The bridge between the Pub/Sub topic tasks and the pipeline (src/sf2loki/sources/pubsub_source.py, `events`): the
 topic tasks put on a bounded queue, late tasks may be spawned, and the drain loop ends on the last sentinel.
 */
module Bridge {
  import Q = BoundedQueue

  /** `remaining` counts the sentinels still expected. */
  datatype Bridge<T> = Bridge(io: Q.Queue<T>, remaining: int)

  /** `Get` and `Deliver` are the drain loop; `Resume` is the pipeline asking for more. */
  datatype Action<T> = Produce(step: Q.Action<T>) | Get | Deliver | Resume

  predicate Enabled<T>(l: Q.Limits, s: Bridge<T>, a: Action<T>) {
    match a
    case Produce(step) =>
      && (step.Yield? || step.Close? || step.Charge? || step.Put? || step.PutSentinel? || step.Spawn?)
      && Q.Enabled(l, s.io, step)
    case Get => s.remaining > 0 && Q.Enabled(l, s.io, Q.Take)
    case Deliver => s.io.taker.Holding?
    case Resume => s.io.taker.Busy?
  }

  function Apply<T>(l: Q.Limits, s: Bridge<T>, a: Action<T>): Bridge<T>
    requires Enabled(l, s, a)
  {
    match a
    case Produce(step) => Bridge(Q.Apply(l, s.io, step), if step.Spawn? then s.remaining + 1 else s.remaining)
    case Get => s.(io := Q.Apply(l, s.io, Q.Take))
    case Deliver =>
      if s.io.taker.item.Sentinel? then Bridge(Q.Apply(l, s.io, Q.Release(Q.Ready)), s.remaining - 1)
      else s.(io := Q.Apply(l, s.io, Q.Release(Q.Busy)))
    case Resume => s.(io := Q.Apply(l, s.io, Q.Turn(Q.Ready)))
  }

  ghost predicate Inv<T>(l: Q.Limits, s: Bridge<T>) {
    Q.Inv(l, s.io) && s.remaining == |Q.Live(s.io)| && !s.io.taker.Gone?
  }

  lemma {:induction false} StepKeepsInv<T>(l: Q.Limits, s: Bridge<T>, a: Action<T>)
    requires Inv(l, s) && Enabled(l, s, a)
    ensures Inv(l, Apply(l, s, a))
  {
    var step := match a
      case Produce(step) => step
      case Get => Q.Take
      case Deliver => Q.Release(if s.io.taker.item.Sentinel? then Q.Ready else Q.Busy)
      case Resume => Q.Turn(Q.Ready);
    Q.StepKeepsInv(l, s.io, step);
    Q.LiveChanges(l, s.io, step);
  }

  predicate Legal<T>(l: Q.Limits, s: Bridge<T>, run: seq<Action<T>>)
    decreases |run|
  {
    |run| == 0 || (Enabled(l, s, run[0]) && Legal(l, Apply(l, s, run[0]), run[1..]))
  }

  function Final<T>(l: Q.Limits, s: Bridge<T>, run: seq<Action<T>>): Bridge<T>
    requires Legal(l, s, run)
    decreases |run|
  {
    if |run| == 0 then s else Final(l, Apply(l, s, run[0]), run[1..])
  }

  lemma {:induction false} RunKeepsInv<T>(l: Q.Limits, s: Bridge<T>, run: seq<Action<T>>)
    requires Inv(l, s) && Legal(l, s, run)
    ensures Inv(l, Final(l, s, run))
    decreases |run|
  {
    if |run| > 0 {
      StepKeepsInv(l, s, run[0]);
      RunKeepsInv(l, Apply(l, s, run[0]), run[1..]);
    }
  }

  function Opening<T>(n: nat): Bridge<T> {
    Bridge(Q.Opening(n), n)
  }

  /** All that every topic task enqueued has been handed on, in its order. */
  ghost predicate AllDelivered<T>(io: Q.Queue<T>) {
    forall p: nat :: p < |io.yielded| ==> Q.Of(p, io.taken) == io.yielded[p]
  }

  lemma {:induction false} NoneLiveMeansAll<T>(l: Q.Limits, s: Bridge<T>)
    requires Inv(l, s) && s.remaining == 0
    ensures AllDelivered(s.io)
  {
    assert Q.Live(s.io) == {};
    forall p: nat | p < |s.io.yielded|
      ensures Q.Of(p, s.io.taken) == s.io.yielded[p]
    {
      Q.EndedIsComplete(s.io, p);
    }
  }

  /** The bridge's bytes are accounted for and bounded, and the drain loop ends only when every topic is drained. */
  lemma {:induction false} BridgeIsBoundedAndComplete<T>(l: Q.Limits, n: nat, run: seq<Action<T>>)
    requires Legal(l, Opening<T>(n), run)
    ensures var s := Final(l, Opening<T>(n), run);
            Q.BytesBounded(l, s.io) && (s.remaining == 0 ==> AllDelivered(s.io))
  {
    Q.OpeningInv(l, n, Q.Opening<T>(n));
    RunKeepsInv(l, Opening<T>(n), run);
    var s := Final(l, Opening<T>(n), run);
    if s.remaining == 0 {
      NoneLiveMeansAll(l, s);
    }
  }

  /** The drain loop or the pipeline behind it can take a step. */
  predicate DrainCanStep<T>(l: Q.Limits, s: Bridge<T>) {
    Enabled(l, s, Get) || Enabled(l, s, Deliver) || Enabled(l, s, Resume)
  }

  lemma {:induction false} BlockedIsNotAlone<T>(l: Q.Limits, s: Bridge<T>, p: nat)
    requires Inv(l, s) && Q.Blocked(l, s.io, p)
    ensures DrainCanStep(l, s) || exists o: nat :: o != p && Enabled(l, s, Produce(Q.Put(o)))
  {
    Q.BlockedMeansProgress(l, s.io, p);
    if s.io.taker.Ready? {
      if Q.Enabled(l, s.io, Q.Take) {
        BlockedIsLive(l, s, p);
      } else {
        var o: nat :| o != p && Q.Enabled(l, s.io, Q.Put(o));
        assert Enabled(l, s, Produce(Q.Put(o)));
      }
    }
  }

  /** A blocked topic task never waits alone: another can put, the drain loop can step, or the pipeline has an entry. */
  lemma {:induction false} NoTopicIsStuck<T>(l: Q.Limits, n: nat, run: seq<Action<T>>, p: nat)
    requires Legal(l, Opening<T>(n), run) && Q.Blocked(l, Final(l, Opening<T>(n), run).io, p)
    ensures var s := Final(l, Opening<T>(n), run);
            DrainCanStep(l, s) || exists o: nat :: o != p && Enabled(l, s, Produce(Q.Put(o)))
  {
    Q.OpeningInv(l, n, Q.Opening<T>(n));
    RunKeepsInv(l, Opening<T>(n), run);
    BlockedIsNotAlone(l, Final(l, Opening<T>(n), run), p);
  }

  lemma {:induction false} BlockedIsLive<T>(l: Q.Limits, s: Bridge<T>, p: nat)
    requires Inv(l, s) && Q.Blocked(l, s.io, p)
    ensures s.remaining > 0
  {
    assert Q.SourceOk(Q.Flow(s.io), p, s.io.hands[p], s.io.yielded[p]);
    assert forall i :: 0 <= i < |s.io.taken| ==> Q.Flow(s.io)[i] == s.io.taken[i];
    assert p in Q.Live(s.io);
  }
}
