/**
 The byte budget in terms of the entries themselves (src/sf2loki/app.py, `_entry_cost`): what waits in a lane is bounded
 in memory, not only in the lane's own count.
 */
module PipelineMemory {
  import opened Pipeline
  import Q = BoundedQueue
  import Safety = PipelineSafety

  /** What an entry takes: its line, its labels and metadata, and the overhead; nothing when it only carries a token. */
  function Size(e: Entry): nat {
    if e.only then 0 else e.line + e.extra + ENTRY_OVERHEAD
  }

  /** What the entries among the items take together. */
  function Memory(items: seq<Event>): nat {
    if items == [] then 0 else (if items[0].Data? then Size(items[0].value) else 0) + Memory(items[1..])
  }

  predicate ItemCosted(cfg: Config, e: Event) {
    e.Data? ==> e.cost == Charged(cfg, e.value)
  }

  predicate HandCosted(cfg: Config, h: Q.Hand<Entry>) {
    h.Charging? || h.Sleeping? || h.Putting? ==> h.cost == Charged(cfg, h.value)
  }

  /** Every value carries its cost, wherever it is. */
  predicate Costed(cfg: Config, io: Q.Queue<Entry>) {
    && (forall i :: 0 <= i < |io.items| ==> ItemCosted(cfg, io.items[i]))
    && (forall p :: 0 <= p < |io.hands| ==> HandCosted(cfg, io.hands[p]))
    && (io.taker.Holding? ==> ItemCosted(cfg, io.taker.item))
  }

  lemma {:induction false} QueueKeepsCosted(cfg: Config, io: Q.Queue<Entry>, a: Q.Action<Entry>)
    requires Costed(cfg, io) && Q.Enabled(Limits(cfg), io, a) && (a.Yield? ==> a.cost == Charged(cfg, a.value))
    ensures Costed(cfg, Q.Apply(Limits(cfg), io, a))
  {
    if a.Release? {
      Q.WokenSpec(io.hands);
    }
  }

  lemma {:induction false} StepKeepsCosted(cfg: Config, s: Lane, a: Action)
    requires Costed(cfg, s.io) && Enabled(cfg, s, a)
    ensures Costed(cfg, Apply(cfg, s, a).io)
  {
    match a
    case Produce(step) => QueueKeepsCosted(cfg, s.io, step);
    case Get => QueueKeepsCosted(cfg, s.io, Q.Take);
    case Absorb =>
      var (basket, flush) := Absorbed(cfg, s.basket, s.io.taker.item);
      QueueKeepsCosted(cfg, s.io, Q.Release(if flush then Q.Busy else Q.Ready));
    case _ =>
  }

  lemma {:induction false} RunKeepsCosted(cfg: Config, s: Lane, run: seq<Action>)
    requires Costed(cfg, s.io) && Legal(cfg, s, run)
    ensures Costed(cfg, Final(cfg, s, run).io)
    decreases |run|
  {
    if |run| > 0 {
      StepKeepsCosted(cfg, s, run[0]);
      RunKeepsCosted(cfg, Apply(cfg, s, run[0]), run[1..]);
    }
  }

  lemma {:induction false} MemoryIsTotal(cfg: Config, items: seq<Event>)
    requires cfg.budget > 0 && forall i :: 0 <= i < |items| ==> ItemCosted(cfg, items[i])
    ensures Q.Total(items) == Memory(items)
  {
    if items != [] {
      assert ItemCosted(cfg, items[0]);
      MemoryIsTotal(cfg, items[1..]);
    }
  }

  lemma {:induction false} QueueMemoryIsBounded(cfg: Config, io: Q.Queue<Entry>)
    requires cfg.budget > 0 && Costed(cfg, io) && Q.BytesBounded(Limits(cfg), io)
    ensures Memory(io.items) <= cfg.budget - 1 + cfg.most
  {
    MemoryIsTotal(cfg, io.items);
  }

  /** With a byte budget set, the entries waiting in a lane never take more than budget - 1 plus the largest entry. */
  lemma {:induction false} MemoryIsBounded(cfg: Config, n: nat, run: seq<Action>)
    requires Legal(cfg, Opening(n), run) && cfg.budget > 0
    ensures Memory(Final(cfg, Opening(n), run).io.items) <= cfg.budget - 1 + cfg.most
  {
    Safety.LaneBytesAreBounded(cfg, n, run);
    RunKeepsCosted(cfg, Opening(n), run);
    QueueMemoryIsBounded(cfg, Final(cfg, Opening(n), run).io);
  }
}
