/**
 The pipeline (src/sf2loki/app.py): per lane, producers feed a bounded queue and one consumer batches, pushes to Loki
 and commits checkpoints. Sources, the governor and Loki behave in any way; each step runs from one `await` to the next.
 */
module Pipeline {
  import Q = BoundedQueue
  import Sink = LokiSink

  const ENTRY_OVERHEAD: nat := 64

  /** A log entry: its checkpoint token, whether it carries the token only, its line bytes and its other bytes. */
  datatype Entry = Entry(key: string, value: string, only: bool, line: nat, extra: nat)

  type Event = Q.Item<Entry>

  datatype Config = Config(maxsize: int, budget: int, maxEntries: int, maxBytes: int, governed: bool, most: nat)

  /** The batch being collected, whether its deadline is set, and how many sentinels are awaited. */
  datatype Basket = Basket(entries: seq<Event>, bytes: nat, armed: bool, active: int)

  datatype Phase =
    | Collecting
    | Flushing(last: bool)
    | Pushing(last: bool)
    | BackingOff(last: bool)
    | Committing(last: bool)
    | Done
    | Dead

  /** How real entries end: in a batch Loki took, refused alone by Loki, or dropped because the daily budget is spent. */
  datatype End = Accepted(batch: seq<Event>) | Refused(entry: Event, code: int) | OverBudget(entry: Event) {
    function Entries(): seq<Event> {
      if Accepted? then batch else [entry]
    }
  }

  /** A flushed batch: committed, with where its real entries ended, or abandoned on shutdown. */
  datatype Closed = Settled(batch: seq<Event>, ends: seq<End>) | Abandoned(batch: seq<Event>)

  /** `closed` are the flushed batches in order; `ends` is where the real entries of the batch to be committed ended. */
  datatype Lane = Lane(io: Q.Queue<Entry>, basket: Basket, phase: Phase, closed: seq<Closed>, ends: seq<End>,
                       committed: map<string, string>)

  datatype Action =
    | Produce(step: Q.Action<Entry>)
    | Get
    | Absorb
    | Timeout
    | Flush(admitted: bool)
    | Push(loki: Sink.Loki)
    | Retry
    | Abandon
    | Commit
    | CommitFails

  function Limits(cfg: Config): Q.Limits {
    Q.Limits(cfg.maxsize, cfg.budget, cfg.most)
  }

  /** What an entry weighs in the queue; nothing when it only carries a token or the budget is off. */
  function Charged(cfg: Config, e: Entry): nat {
    if cfg.budget <= 0 || e.only then 0 else e.line + ENTRY_OVERHEAD + e.extra
  }

  predicate IsReal(e: Event) {
    e.Data? && !e.value.only
  }

  function Reals(events: seq<Event>): seq<Event> {
    if events == [] then []
    else
      var last := events[|events| - 1];
      Reals(events[..|events| - 1]) + (if IsReal(last) then [last] else [])
  }

  /** The last token of every key. */
  function LastTokens(events: seq<Event>): map<string, string> {
    if events == [] then map[]
    else
      var last := events[|events| - 1];
      var rest := LastTokens(events[..|events| - 1]);
      if last.Data? then rest[last.value.key := last.value.value] else rest
  }

  /** The basket with one more item, and whether it must be flushed now. */
  function Absorbed(cfg: Config, b: Basket, item: Event): (Basket, bool) {
    if item.Sentinel? then
      var left := b.(active := b.active - 1);
      (left, left.active == 0)
    else
      var bytes := b.bytes + (if item.value.only then 0 else item.value.line + ENTRY_OVERHEAD);
      var more := Basket(b.entries + [item], bytes, true, b.active);
      (more, |more.entries| >= cfg.maxEntries || more.bytes >= cfg.maxBytes)
  }

  function OverBudgetAll(events: seq<Event>): seq<End> {
    if events == [] then [] else [OverBudget(events[0])] + OverBudgetAll(events[1..])
  }

  function RefusedAll(events: seq<Event>, code: int): seq<End> {
    if events == [] then [] else [Refused(events[0], code)] + RefusedAll(events[1..], code)
  }

  function FromLeaf(leaf: Sink.Leaf<Event>): End {
    if leaf.Accepted? then Accepted(leaf.batch) else Refused(leaf.entry, leaf.code)
  }

  function FromLeaves(leaves: seq<Sink.Leaf<Event>>): seq<End> {
    if leaves == [] then [] else [FromLeaf(leaves[0])] + FromLeaves(leaves[1..])
  }

  function Emptied(b: Basket): Basket {
    Basket([], 0, false, b.active)
  }

  function Next(last: bool): Q.Taker<Entry> {
    if last then Q.Gone else Q.Ready
  }

  predicate Enabled(cfg: Config, s: Lane, a: Action) {
    match a
    case Produce(step) =>
      && (step.Yield? || step.Close? || step.Charge? || step.Put? || step.PutSentinel?)
      && Q.Enabled(Limits(cfg), s.io, step)
      && (step.Yield? ==> step.cost == Charged(cfg, step.value))
    case Get => s.phase.Collecting? && Q.Enabled(Limits(cfg), s.io, Q.Take)
    case Absorb => s.phase.Collecting? && s.io.taker.Holding?
    case Timeout => s.phase.Collecting? && s.io.taker.Ready? && s.basket.armed
    case Flush(admitted) => s.phase.Flushing? && s.io.taker.Busy? && (admitted || cfg.governed)
    case Push(_) => s.phase.Pushing?
    case Retry => s.phase.BackingOff?
    case Abandon => s.phase.BackingOff? && s.io.taker.Busy?
    case Commit => s.phase.Committing? && s.io.taker.Busy?
    case CommitFails => s.phase.Committing? && s.io.taker.Busy?
  }

  /** The batch is over: collect again, or return after the last one. */
  function Over(cfg: Config, s: Lane, last: bool): Lane
    requires s.io.taker.Busy?
  {
    s.(io := Q.Apply(Limits(cfg), s.io, Q.Turn(Next(last))),
       basket := Emptied(s.basket), ends := [],
       phase := if last then Done else Collecting)
  }

  /** The real entries of the batch have ended; its tokens may be committed. */
  function Settle(s: Lane, ends: seq<End>): Lane
    requires s.phase.Flushing? || s.phase.Pushing?
  {
    s.(phase := Committing(s.phase.last), ends := ends)
  }

  function Answered(s: Lane, report: Sink.Report<Event>): Lane
    requires s.phase.Pushing?
  {
    match report.verdict
    case Retryable => s.(phase := BackingOff(s.phase.last))
    case Permanent(code) => Settle(s, RefusedAll(Reals(s.basket.entries), code))
    case Delivered => Settle(s, FromLeaves(report.leaves))
  }

  function Apply(cfg: Config, s: Lane, a: Action): Lane
    requires Enabled(cfg, s, a)
  {
    match a
    case Produce(step) => s.(io := Q.Apply(Limits(cfg), s.io, step))
    case Get => s.(io := Q.Apply(Limits(cfg), s.io, Q.Take))
    case Absorb =>
      var item := s.io.taker.item;
      var (basket, flush) := Absorbed(cfg, s.basket, item);
      s.(io := Q.Apply(Limits(cfg), s.io, Q.Release(if flush then Q.Busy else Q.Ready)),
         basket := basket,
         phase := if flush then Flushing(item.Sentinel?) else Collecting)
    case Timeout => s.(io := Q.Apply(Limits(cfg), s.io, Q.Turn(Q.Busy)), phase := Flushing(false))
    case Flush(admitted) =>
      var last, pushed := s.phase.last, Reals(s.basket.entries);
      if s.basket.entries == [] then Over(cfg, s, last)
      else if pushed == [] then Settle(s, [])
      else if !admitted then Settle(s, OverBudgetAll(pushed))
      else s.(phase := Pushing(last))
    case Push(loki) =>
      Answered(s, Sink.Push(Reals(s.basket.entries), loki, 0))
    case Retry => s.(phase := Pushing(s.phase.last))
    case Abandon => Over(cfg, s, s.phase.last).(closed := s.closed + [Abandoned(s.basket.entries)])
    case Commit =>
      Over(cfg, s, s.phase.last).(closed := s.closed + [Settled(s.basket.entries, s.ends)],
                                  committed := s.committed + LastTokens(s.basket.entries))
    case CommitFails => s.(io := Q.Apply(Limits(cfg), s.io, Q.Turn(Q.Gone)), phase := Dead)
  }

  // ----- small facts about the folds -----

  function DataOf(items: seq<Event>): seq<Event> {
    if items == [] then []
    else
      var last := items[|items| - 1];
      DataOf(items[..|items| - 1]) + (if last.Data? then [last] else [])
  }

  lemma {:induction false} DataOfKeepsSource(p: nat, items: seq<Event>)
    ensures Q.Of(p, DataOf(items)) == Q.Of(p, items)
  {
    if items != [] {
      var front, last := items[..|items| - 1], items[|items| - 1];
      DataOfKeepsSource(p, front);
      if last.Data? {
        Q.OfAppend(p, DataOf(front), last);
      } else {
        assert DataOf(items) == DataOf(front);
      }
    }
  }

  lemma {:induction false} DataOfAppend(items: seq<Event>, item: Event)
    ensures DataOf(items + [item]) == DataOf(items) + (if item.Data? then [item] else [])
  {
    assert (items + [item])[..|items|] == items;
  }

  lemma {:induction false} RealsConcat(a: seq<Event>, b: seq<Event>)
    ensures Reals(a + b) == Reals(a) + Reals(b)
  {
    if b == [] {
      assert a + b == a;
    } else {
      RealsConcat(a, b[..|b| - 1]);
      assert (a + b)[..|a + b| - 1] == a + b[..|b| - 1];
    }
  }

  lemma {:induction false} LastTokensConcat(a: seq<Event>, b: seq<Event>)
    ensures LastTokens(a + b) == LastTokens(a) + LastTokens(b)
  {
    if b == [] {
      assert a + b == a;
    } else {
      LastTokensConcat(a, b[..|b| - 1]);
      assert (a + b)[..|a + b| - 1] == a + b[..|b| - 1];
    }
  }

  /** The entries that ended, in order. */
  function Flat(ends: seq<End>): seq<Event> {
    if ends == [] then [] else ends[0].Entries() + Flat(ends[1..])
  }

  lemma {:induction false} Regroup(x: seq<Event>, y: seq<Event>, z: seq<Event>)
    ensures x + (y + z) == (x + y) + z
  {
  }

  lemma {:induction false} FlatConcat(a: seq<End>, b: seq<End>)
    ensures Flat(a + b) == Flat(a) + Flat(b)
  {
    if a == [] {
      assert a + b == b;
    } else {
      var rest, both := a[1..], a + b;
      assert both[0] == a[0] && both[1..] == rest + b;
      FlatConcat(rest, b);
      Regroup(a[0].Entries(), Flat(rest), Flat(b));
    }
  }

  lemma {:induction false} OverBudgetFlattens(events: seq<Event>)
    ensures Flat(OverBudgetAll(events)) == events
  {
    if events != [] {
      OverBudgetFlattens(events[1..]);
      assert OverBudgetAll(events)[1..] == OverBudgetAll(events[1..]);
    }
  }

  lemma {:induction false} RefusedFlattens(events: seq<Event>, code: int)
    ensures Flat(RefusedAll(events, code)) == events
  {
    if events != [] {
      RefusedFlattens(events[1..], code);
      assert RefusedAll(events, code)[1..] == RefusedAll(events[1..], code);
    }
  }

  lemma {:induction false} LeavesFlatten(leaves: seq<Sink.Leaf<Event>>)
    ensures Flat(FromLeaves(leaves)) == Sink.Flatten(leaves)
  {
    if leaves != [] {
      LeavesFlatten(leaves[1..]);
      assert FromLeaves(leaves)[1..] == FromLeaves(leaves[1..]);
    }
  }

  /** The events of all flushed batches, in order. */
  function Past(closed: seq<Closed>): seq<Event> {
    if closed == [] then [] else Past(closed[..|closed| - 1]) + closed[|closed| - 1].batch
  }

  /** The events of the committed batches, in order. */
  function SettledOf(closed: seq<Closed>): seq<Event> {
    if closed == [] then []
    else
      var last := closed[|closed| - 1];
      SettledOf(closed[..|closed| - 1]) + (if last.Settled? then last.batch else [])
  }

  /** The events of the abandoned batches, in order. */
  function AbandonedOf(closed: seq<Closed>): seq<Event> {
    if closed == [] then []
    else
      var last := closed[|closed| - 1];
      AbandonedOf(closed[..|closed| - 1]) + (if last.Abandoned? then last.batch else [])
  }

  /** Where the real entries of the committed batches ended, in order. */
  function EndsOf(closed: seq<Closed>): seq<End> {
    if closed == [] then []
    else
      var last := closed[|closed| - 1];
      EndsOf(closed[..|closed| - 1]) + (if last.Settled? then last.ends else [])
  }

  /** No batch was abandoned. */
  predicate Undisturbed(closed: seq<Closed>) {
    forall i :: 0 <= i < |closed| ==> closed[i].Settled?
  }

  // ----- what every step keeps -----

  predicate PhaseInv(s: Lane) {
    && s.basket.active == |Q.Live(s.io)|
    && match s.phase
       case Collecting => s.io.taker.Ready? || s.io.taker.Holding?
       case Done => s.io.taker.Gone? && s.basket.active == 0 && s.basket.entries == []
       case Dead => s.io.taker.Gone?
       case _ => s.io.taker.Busy? && (s.phase.last ==> s.basket.active == 0)
  }

  /** What left the queue is what was flushed and what is being collected. */
  predicate BatchInv(s: Lane) {
    DataOf(s.io.taken) == Past(s.closed) + s.basket.entries
  }

  /** The real entries of every committed batch, and of the one about to be, ended one way or another, each once. */
  predicate Accounted(closed: seq<Closed>) {
    forall i :: 0 <= i < |closed| && closed[i].Settled? ==> Flat(closed[i].ends) == Reals(closed[i].batch)
  }

  predicate SettledInv(s: Lane) {
    && Accounted(s.closed)
    && Flat(s.ends) == (if s.phase.Committing? || s.phase.Dead? then Reals(s.basket.entries) else [])
    && (s.phase.Committing? || s.phase.Dead? || s.ends == [])
    && s.committed == LastTokens(SettledOf(s.closed))
  }

  ghost predicate Inv(cfg: Config, s: Lane) {
    Q.Inv(Limits(cfg), s.io) && PhaseInv(s) && BatchInv(s) && SettledInv(s)
  }

  lemma {:induction false} ProduceKeepsInv(cfg: Config, s: Lane, step: Q.Action<Entry>)
    requires Inv(cfg, s) && Enabled(cfg, s, Produce(step))
    ensures Inv(cfg, Apply(cfg, s, Produce(step)))
  {
    Q.StepKeepsInv(Limits(cfg), s.io, step);
    Q.LiveChanges(Limits(cfg), s.io, step);
  }

  lemma {:induction false} GetKeepsInv(cfg: Config, s: Lane)
    requires Inv(cfg, s) && Enabled(cfg, s, Get)
    ensures Inv(cfg, Apply(cfg, s, Get))
  {
    Q.StepKeepsInv(Limits(cfg), s.io, Q.Take);
    Q.LiveChanges(Limits(cfg), s.io, Q.Take);
  }

  lemma {:induction false} AbsorbKeepsPhase(cfg: Config, s: Lane)
    requires Inv(cfg, s) && Enabled(cfg, s, Absorb)
    ensures Q.Inv(Limits(cfg), Apply(cfg, s, Absorb).io) && PhaseInv(Apply(cfg, s, Absorb))
  {
    var (basket, flush) := Absorbed(cfg, s.basket, s.io.taker.item);
    var step := Q.Release(if flush then Q.Busy else Q.Ready);
    Q.StepKeepsInv(Limits(cfg), s.io, step);
    Q.LiveChanges(Limits(cfg), s.io, step);
  }

  lemma {:induction false} AbsorbKeepsBatch(cfg: Config, s: Lane)
    requires BatchInv(s) && Enabled(cfg, s, Absorb)
    ensures BatchInv(Apply(cfg, s, Absorb))
  {
    DataOfAppend(s.io.taken, s.io.taker.item);
  }

  lemma {:induction false} AbsorbKeepsInv(cfg: Config, s: Lane)
    requires Inv(cfg, s) && Enabled(cfg, s, Absorb)
    ensures Inv(cfg, Apply(cfg, s, Absorb))
  {
    AbsorbKeepsPhase(cfg, s);
    AbsorbKeepsBatch(cfg, s);
  }

  lemma {:induction false} TurnKeepsIo(cfg: Config, io: Q.Queue<Entry>, next: Q.Taker<Entry>)
    requires Q.Inv(Limits(cfg), io) && Q.Enabled(Limits(cfg), io, Q.Turn(next))
    ensures var after := Q.Apply(Limits(cfg), io, Q.Turn(next));
            Q.Inv(Limits(cfg), after) && Q.Live(after) == Q.Live(io) && after.taken == io.taken
  {
    Q.StepKeepsInv(Limits(cfg), io, Q.Turn(next));
    Q.LiveChanges(Limits(cfg), io, Q.Turn(next));
  }

  lemma {:induction false} SettleKeepsInv(cfg: Config, s: Lane, ends: seq<End>)
    requires Inv(cfg, s) && (s.phase.Flushing? || s.phase.Pushing?)
    requires Flat(ends) == Reals(s.basket.entries)
    ensures Inv(cfg, Settle(s, ends))
  {
  }

  lemma {:induction false} FlushKeepsInv(cfg: Config, s: Lane, admitted: bool)
    requires Inv(cfg, s) && Enabled(cfg, s, Flush(admitted))
    ensures Inv(cfg, Apply(cfg, s, Flush(admitted)))
  {
    var pushed := Reals(s.basket.entries);
    if s.basket.entries == [] {
      TurnKeepsIo(cfg, s.io, Next(s.phase.last));
    } else if pushed == [] {
      SettleKeepsInv(cfg, s, []);
    } else if !admitted {
      OverBudgetFlattens(pushed);
      SettleKeepsInv(cfg, s, OverBudgetAll(pushed));
    }
  }

  lemma {:induction false} AnswerKeepsInv(cfg: Config, s: Lane, report: Sink.Report<Event>)
    requires Inv(cfg, s) && s.phase.Pushing?
    requires report.verdict.Delivered? ==> Sink.Flatten(report.leaves) == Reals(s.basket.entries)
    ensures Inv(cfg, Answered(s, report))
  {
    match report.verdict
    case Retryable =>
    case Permanent(code) =>
      RefusedFlattens(Reals(s.basket.entries), code);
      SettleKeepsInv(cfg, s, RefusedAll(Reals(s.basket.entries), code));
    case Delivered =>
      LeavesFlatten(report.leaves);
      SettleKeepsInv(cfg, s, FromLeaves(report.leaves));
  }

  lemma {:induction false} ClosedAppend(closed: seq<Closed>, c: Closed)
    ensures Past(closed + [c]) == Past(closed) + c.batch
    ensures SettledOf(closed + [c]) == SettledOf(closed) + (if c.Settled? then c.batch else [])
    ensures AbandonedOf(closed + [c]) == AbandonedOf(closed) + (if c.Abandoned? then c.batch else [])
    ensures EndsOf(closed + [c]) == EndsOf(closed) + (if c.Settled? then c.ends else [])
  {
    assert (closed + [c])[..|closed|] == closed;
  }

  /** The batch goes from the basket to the flushed ones. */
  lemma {:induction false} CloseKeepsInv(cfg: Config, s: Lane, c: Closed, t: Lane)
    requires Inv(cfg, s) && s.io.taker.Busy? && (s.phase.BackingOff? || s.phase.Committing?)
    requires c.batch == s.basket.entries && (c.Settled? ==> Flat(c.ends) == Reals(c.batch))
    requires t == Over(cfg, s, s.phase.last).(closed := s.closed + [c], committed := if c.Settled? then s.committed + LastTokens(c.batch) else s.committed)
    ensures Inv(cfg, t)
  {
    TurnKeepsIo(cfg, s.io, Next(s.phase.last));
    CloseKeepsTokens(s.closed, c);
    CloseKeepsBatch(s, c);
    AccountedAppend(s.closed, c);
    assert BatchInv(t) && SettledInv(t) && PhaseInv(t);
  }

  lemma {:induction false} CloseKeepsBatch(s: Lane, c: Closed)
    requires BatchInv(s) && c.batch == s.basket.entries
    ensures DataOf(s.io.taken) == Past(s.closed + [c]) + []
  {
    ClosedAppend(s.closed, c);
  }

  lemma {:induction false} AccountedAppend(closed: seq<Closed>, c: Closed)
    requires Accounted(closed) && (c.Settled? ==> Flat(c.ends) == Reals(c.batch))
    ensures Accounted(closed + [c])
  {
  }

  lemma {:induction false} CloseKeepsTokens(closed: seq<Closed>, c: Closed)
    ensures LastTokens(SettledOf(closed + [c])) ==
            if c.Settled? then LastTokens(SettledOf(closed)) + LastTokens(c.batch) else LastTokens(SettledOf(closed))
  {
    ClosedAppend(closed, c);
    if c.Settled? {
      LastTokensConcat(SettledOf(closed), c.batch);
    } else {
      assert SettledOf(closed + [c]) == SettledOf(closed);
    }
  }

  lemma {:induction false} StepKeepsInv(cfg: Config, s: Lane, a: Action)
    requires Inv(cfg, s) && Enabled(cfg, s, a)
    ensures Inv(cfg, Apply(cfg, s, a))
  {
    match a
    case Produce(step) => ProduceKeepsInv(cfg, s, step);
    case Get => GetKeepsInv(cfg, s);
    case Absorb => AbsorbKeepsInv(cfg, s);
    case Timeout => TurnKeepsIo(cfg, s.io, Q.Busy);
    case Flush(admitted) => FlushKeepsInv(cfg, s, admitted);
    case Push(loki) =>
      Sink.LeavesCoverBatch(Reals(s.basket.entries), loki, 0);
      AnswerKeepsInv(cfg, s, Sink.Push(Reals(s.basket.entries), loki, 0));
    case Retry =>
    case Abandon => CloseKeepsInv(cfg, s, Abandoned(s.basket.entries), Apply(cfg, s, a));
    case Commit => CloseKeepsInv(cfg, s, Settled(s.basket.entries, s.ends), Apply(cfg, s, a));
    case CommitFails => TurnKeepsIo(cfg, s.io, Q.Gone);
  }

  // ----- runs -----

  function Fresh(io: Q.Queue<Entry>, n: nat): Lane {
    Lane(io, Basket([], 0, false, n), Collecting, [], [], map[])
  }

  function Opening(n: nat): Lane {
    Fresh(Q.Opening(n), n)
  }

  predicate Legal(cfg: Config, s: Lane, run: seq<Action>)
    decreases |run|
  {
    |run| == 0 || (Enabled(cfg, s, run[0]) && Legal(cfg, Apply(cfg, s, run[0]), run[1..]))
  }

  function Final(cfg: Config, s: Lane, run: seq<Action>): Lane
    requires Legal(cfg, s, run)
    decreases |run|
  {
    if |run| == 0 then s else Final(cfg, Apply(cfg, s, run[0]), run[1..])
  }

  lemma {:induction false} OpeningInv(cfg: Config, n: nat)
    ensures Inv(cfg, Opening(n))
  {
    Q.OpeningInv(Limits(cfg), n, Q.Opening<Entry>(n));
    FreshInv(cfg, Q.Opening(n), n);
  }

  lemma {:induction false} FreshInv(cfg: Config, io: Q.Queue<Entry>, n: nat)
    requires Q.Inv(Limits(cfg), io) && |Q.Live(io)| == n && io.taker.Ready? && io.taken == []
    ensures Inv(cfg, Fresh(io, n))
  {
  }

  lemma {:induction false} RunKeepsInv(cfg: Config, s: Lane, run: seq<Action>)
    requires Inv(cfg, s) && Legal(cfg, s, run)
    ensures Inv(cfg, Final(cfg, s, run))
    decreases |run|
  {
    if |run| > 0 {
      StepKeepsInv(cfg, s, run[0]);
      RunKeepsInv(cfg, Apply(cfg, s, run[0]), run[1..]);
    }
  }

  // ----- the loops of a flush, and the consumer's own fields -----

  method RealEntries(entries: seq<Event>) returns (pushed: seq<Event>)
    ensures pushed == Reals(entries)
  {
    pushed := [];
    for i := 0 to |entries|
      invariant pushed == Reals(entries[..i])
    {
      assert entries[..i + 1][..i] == entries[..i];
      if IsReal(entries[i]) {
        pushed := pushed + [entries[i]];
      }
    }
    assert entries[..|entries|] == entries;
  }

  /** The tokens one flush writes: a key's token is that of its last entry in the batch. */
  method CommitTokens(entries: seq<Event>) returns (last: map<string, string>)
    ensures last == LastTokens(entries)
  {
    last := map[];
    for i := 0 to |entries|
      invariant last == LastTokens(entries[..i])
    {
      assert entries[..i + 1][..i] == entries[..i];
      if entries[i].Data? {
        last := last[entries[i].value.key := entries[i].value.value];
      }
    }
    assert entries[..|entries|] == entries;
  }

  class Consumer {
    const cfg: Config
    var batch: seq<Event>
    var approxBytes: nat
    var armed: bool
    var active: int

    function View(): Basket
      reads this
    {
      Basket(batch, approxBytes, armed, active)
    }

    constructor (cfg: Config, n: nat)
      ensures this.cfg == cfg && View() == Opening(n).basket
    {
      this.cfg, batch, approxBytes, armed, active := cfg, [], 0, false, n;
    }

    method AbsorbItem(item: Event) returns (flush: bool)
      modifies this
      ensures (View(), flush) == Absorbed(cfg, old(View()), item)
    {
      if item.Sentinel? {
        active := active - 1;
        return active == 0;
      }
      batch := batch + [item];
      if !item.value.only {
        approxBytes := approxBytes + item.value.line + ENTRY_OVERHEAD;
      }
      armed := true;
      flush := |batch| >= cfg.maxEntries || approxBytes >= cfg.maxBytes;
    }

    method StartOver()
      modifies this
      ensures View() == Emptied(old(View()))
    {
      batch, approxBytes, armed := [], 0, false;
    }
  }
}
