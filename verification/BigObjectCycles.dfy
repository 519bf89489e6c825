/**
 Poll cycles of a Big Object (src/sf2loki/sources/eventlog_objects_source.py, `_process_object` and `_emit_record`):
 a capped drain from the committed watermark, rows already in the id window skipped, every emitted row advancing the
 checkpoint. Commits lag behind and the process may die after any row.
 */
module BigObjectCycles {
  import opened Options
  import opened Windows
  import opened BigObjectDrain

  datatype Checkpoint = Checkpoint(watermark: int, window: seq<string>)

  /** The checkpoint carried by the entry of row `r`, also when the row itself is filtered or sampled out. */
  function Advanced(c: Checkpoint, r: Record): Checkpoint {
    Checkpoint(r.ts, Tail(c.window + [r.id]))
  }

  /** The checkpoint after the first `n` emitted rows. */
  function After(c: Checkpoint, rows: seq<Record>, n: nat): Checkpoint
    requires n <= |rows|
  {
    if n == 0 then c else Advanced(After(c, rows, n - 1), rows[n - 1])
  }

  /** The rows whose id is not in the window, in order. */
  function Unseen(window: seq<string>, rows: seq<Record>): seq<Record> {
    if rows == [] then []
    else
      var rest := Unseen(window, rows[..|rows| - 1]);
      var last := rows[|rows| - 1];
      if last.id in window then rest else rest + [last]
  }

  method SkipSeen(window: seq<string>, rows: seq<Record>) returns (unseen: seq<Record>)
    ensures unseen == Unseen(window, rows)
  {
    unseen := [];
    for i := 0 to |rows|
      invariant unseen == Unseen(window, rows[..i])
    {
      assert rows[..i + 1][..i] == rows[..i];
      if rows[i].id !in window {
        unseen := unseen + [rows[i]];
      }
    }
    assert rows[..|rows|] == rows;
  }

  /** The checkpoints carried by the entries of the first `n` rows; `keep` says which rows become entries. */
  function Carried(c: Checkpoint, rows: seq<Record>, keep: Record -> bool, n: nat): seq<Checkpoint>
    requires n <= |rows|
  {
    if n == 0 then []
    else Carried(c, rows, keep, n - 1) + (if keep(rows[n - 1]) then [After(c, rows, n)] else [])
  }

  /** The emission loop, cut short by `stop`; a completed cycle that emits no entry still carries its advance. */
  method EmitAll(c: Checkpoint, rows: seq<Record>, keep: Record -> bool, stop: nat -> bool)
    returns (tokens: seq<Checkpoint>, n: nat)
    ensures n <= |rows| && (n < |rows| ==> stop(n)) && (forall i :: 0 <= i < n ==> !stop(i))
    ensures tokens == if n == |rows| && Carried(c, rows, keep, n) == [] && After(c, rows, n) != c
                      then [After(c, rows, n)] else Carried(c, rows, keep, n)
  {
    tokens, n := [], 0;
    var current := c;
    while n < |rows|
      invariant n <= |rows| && (forall i :: 0 <= i < n ==> !stop(i))
      invariant current == After(c, rows, n) && tokens == Carried(c, rows, keep, n)
    {
      if stop(n) {
        return;
      }
      current := Advanced(current, rows[n]);
      if keep(rows[n]) {
        tokens := tokens + [current];
      }
      n := n + 1;
    }
    if tokens == [] && current != c {
      tokens := [current];
    }
  }

  // ----- any number of cycles -----

  /** A cycle under way: it loaded `base`, drained, and emitted the first `n` unseen rows; `some` if one became an entry. */
  datatype Cycle = Cycle(base: Checkpoint, drained: seq<Record>, cap: nat, n: nat, some: bool)

  /** A checkpoint yielded but not committed, and the rows emitted up to then. */
  datatype Pending = Pending(token: Checkpoint, rows: set<Record>)

  /**
   `emitted` are the rows that went through emission in this life of the process. A commit comes only after all that
   was yielded before its token was pushed, so the rows emitted by then become `settled`; a crash loses the others.
   */
  datatype State = State(emitted: set<Record>, pending: seq<Pending>, committed: Checkpoint, settled: set<Record>,
                         cycle: Option<Cycle>)

  datatype Action = Begin(drained: seq<Record>, cap: nat) | Emit(keep: bool) | Finish | Stop | Commit(upto: nat) | Crash

  function Rows(c: Cycle): seq<Record> {
    Unseen(c.base.window, c.drained)
  }

  predicate Enabled(table: set<Record>, s: State, a: Action) {
    match a
    case Begin(drained, cap) => s.cycle.None? && Drained(Selected(table, s.committed.watermark), drained, cap)
    case Emit(_) => s.cycle.Some? && s.cycle.value.n < |Rows(s.cycle.value)|
    case Finish => s.cycle.Some? && s.cycle.value.n == |Rows(s.cycle.value)|
    case Stop => s.cycle.Some?
    case Commit(upto) => upto < |s.pending|
    case Crash => true
  }

  function Apply(table: set<Record>, s: State, a: Action): State
    requires Enabled(table, s, a)
  {
    match a
    case Begin(drained, cap) => s.(cycle := Some(Cycle(s.committed, drained, cap, 0, false)))
    case Emit(keep) =>
      var c := s.cycle.value;
      var emitted := s.emitted + {Rows(c)[c.n]};
      State(emitted,
            if keep then s.pending + [Pending(After(c.base, Rows(c), c.n + 1), emitted)] else s.pending,
            s.committed, s.settled,
            Some(c.(n := c.n + 1, some := c.some || keep)))
    case Finish =>
      var c := s.cycle.value;
      var current := After(c.base, Rows(c), c.n);
      s.(pending := if !c.some && current != c.base then s.pending + [Pending(current, s.emitted)] else s.pending, cycle := None)
    case Stop => s.(cycle := None)
    case Commit(upto) =>
      s.(pending := s.pending[upto + 1..], committed := s.pending[upto].token, settled := s.settled + s.pending[upto].rows)
    case Crash => s.(emitted := s.settled, pending := [], cycle := None)
  }

  /** Every row from the start up to strictly below the checkpoint's watermark has been processed. */
  predicate Covers(table: set<Record>, start: int, processed: set<Record>, watermark: int) {
    forall r :: r in table && start <= r.ts < watermark ==> r in processed
  }

  predicate Safe(table: set<Record>, start: int, processed: set<Record>, c: Checkpoint) {
    && start <= c.watermark
    && Covers(table, start, processed, c.watermark)
    && (forall id :: id in c.window ==> id in Ids(processed))
  }

  predicate AllSafe(table: set<Record>, start: int, processed: set<Record>, tokens: seq<Checkpoint>) {
    forall i :: 0 <= i < |tokens| ==> Safe(table, start, processed, tokens[i])
  }

  predicate CycleInv(table: set<Record>, start: int, processed: set<Record>, c: Cycle) {
    && Safe(table, start, processed, c.base)
    && Drained(Selected(table, c.base.watermark), c.drained, c.cap)
    && c.n <= |Rows(c)|
    && forall i :: 0 <= i < c.n ==> Rows(c)[i] in processed
  }

  /** Every pending checkpoint is safe given the rows emitted up to it. */
  predicate PendingInv(table: set<Record>, start: int, s: State) {
    forall i :: 0 <= i < |s.pending| ==> s.pending[i].rows <= s.emitted && Safe(table, start, s.pending[i].rows, s.pending[i].token)
  }

  predicate Inv(table: set<Record>, start: int, s: State) {
    && s.settled <= s.emitted <= table
    && Safe(table, start, s.settled, s.committed)
    && PendingInv(table, start, s)
    && (s.cycle.Some? ==> CycleInv(table, start, s.emitted, s.cycle.value))
  }

  /** What skipping the seen rows keeps. */
  predicate UnseenOf(window: seq<string>, rows: seq<Record>, unseen: seq<Record>) {
    && Ascending(unseen)
    && (forall i :: 0 <= i < |unseen| ==> unseen[i] in rows)
    && (forall r :: r in rows && r.id !in window ==> r in unseen)
  }

  lemma {:induction false} UnseenSpec(window: seq<string>, rows: seq<Record>)
    requires Ascending(rows)
    ensures UnseenOf(window, rows, Unseen(window, rows))
  {
    if rows != [] {
      var front, last := rows[..|rows| - 1], rows[|rows| - 1];
      UnseenSpec(window, front);
      var rest := Unseen(window, front);
      assert rows == front + [last];
      forall i | 0 <= i < |rest|
        ensures rest[i].ts <= last.ts && rest[i] in rows
      {
        assert rest[i] in front;
      }
    }
  }

  /** A row older than the last one emitted was emitted earlier, seen before, or lies below the base watermark. */
  lemma {:induction false} OlderIsProcessed(table: set<Record>, start: int, processed: set<Record>, c: Cycle, r: Record)
    requires UniqueIds(table) && processed <= table && CycleInv(table, start, processed, c)
    requires 0 < c.n && r in table && start <= r.ts < Rows(c)[c.n - 1].ts
    ensures r in processed
  {
    UnseenSpec(c.base.window, c.drained);
    var newest := Rows(c)[c.n - 1];
    SameMembers(c.drained);
    if r.ts >= c.base.watermark {
      assert r in Selected(table, c.base.watermark);
      var k :| 0 <= k < |c.drained| && c.drained[k] == newest;
      assert r in c.drained;
      if r.id in c.base.window {
        var q :| q in processed && q.id == r.id;
      } else {
        var i :| 0 <= i < |Rows(c)| && Rows(c)[i] == r;
        assert i < c.n;
      }
    }
  }

  lemma {:induction false} EmittedIsAtLeastBase(table: set<Record>, start: int, processed: set<Record>, c: Cycle, n: nat)
    requires CycleInv(table, start, processed, c) && n < |Rows(c)|
    ensures c.base.watermark <= Rows(c)[n].ts && Rows(c)[n] in table
  {
    UnseenSpec(c.base.window, c.drained);
    SameMembers(c.drained);
    assert Rows(c)[n] in ToSet(c.drained);
  }

  lemma {:induction false} WindowIsProcessed(processed: set<Record>, base: Checkpoint, rows: seq<Record>, n: nat)
    requires n <= |rows| && (forall i :: 0 <= i < n ==> rows[i] in processed)
    requires forall id :: id in base.window ==> id in Ids(processed)
    ensures forall id :: id in After(base, rows, n).window ==> id in Ids(processed)
  {
    if n > 0 {
      WindowIsProcessed(processed, base, rows, n - 1);
      var before := After(base, rows, n - 1).window;
      assert rows[n - 1] in processed;
      assert forall id :: id in Tail(before + [rows[n - 1].id]) ==> id in before || id == rows[n - 1].id;
    }
  }

  /** The checkpoint the cycle has reached is safe to commit. */
  lemma {:induction false} CurrentIsSafe(table: set<Record>, start: int, processed: set<Record>, c: Cycle)
    requires UniqueIds(table) && processed <= table && CycleInv(table, start, processed, c)
    ensures Safe(table, start, processed, After(c.base, Rows(c), c.n))
  {
    WindowIsProcessed(processed, c.base, Rows(c), c.n);
    if c.n > 0 {
      EmittedIsAtLeastBase(table, start, processed, c, c.n - 1);
      forall r | r in table && start <= r.ts < Rows(c)[c.n - 1].ts
        ensures r in processed
      {
        OlderIsProcessed(table, start, processed, c, r);
      }
    }
  }

  lemma {:induction false} MoreProcessedIsSafe(table: set<Record>, start: int, processed: set<Record>, more: set<Record>, c: Checkpoint)
    requires Safe(table, start, processed, c) && processed <= more
    ensures Safe(table, start, more, c)
  {
    assert Ids(processed) <= Ids(more);
  }

  lemma {:induction false} EmitKeepsInv(table: set<Record>, start: int, s: State, keep: bool)
    requires UniqueIds(table) && Inv(table, start, s) && Enabled(table, s, Emit(keep))
    ensures Inv(table, start, Apply(table, s, Emit(keep)))
  {
    var c := s.cycle.value;
    var c' := c.(n := c.n + 1, some := c.some || keep);
    var now := s.emitted + {Rows(c)[c.n]};
    EmittedIsAtLeastBase(table, start, s.emitted, c, c.n);
    MoreProcessedIsSafe(table, start, s.emitted, now, c.base);
    assert CycleInv(table, start, now, c');
    CurrentIsSafe(table, start, now, c');
  }

  lemma {:induction false} BeginKeepsInv(table: set<Record>, start: int, s: State, drained: seq<Record>, cap: nat)
    requires Inv(table, start, s) && Enabled(table, s, Begin(drained, cap))
    ensures Inv(table, start, Apply(table, s, Begin(drained, cap)))
  {
    MoreProcessedIsSafe(table, start, s.settled, s.emitted, s.committed);
  }

  lemma {:induction false} CommitKeepsInv(table: set<Record>, start: int, s: State, upto: nat)
    requires Inv(table, start, s) && Enabled(table, s, Commit(upto))
    ensures Inv(table, start, Apply(table, s, Commit(upto)))
  {
    var p := s.pending[upto];
    MoreProcessedIsSafe(table, start, p.rows, s.settled + p.rows, p.token);
  }

  lemma {:induction false} StepKeepsInv(table: set<Record>, start: int, s: State, a: Action)
    requires UniqueIds(table) && Inv(table, start, s) && Enabled(table, s, a)
    ensures Inv(table, start, Apply(table, s, a))
  {
    match a
    case Begin(drained, cap) => BeginKeepsInv(table, start, s, drained, cap);
    case Emit(keep) => EmitKeepsInv(table, start, s, keep);
    case Finish => CurrentIsSafe(table, start, s.emitted, s.cycle.value);
    case Commit(upto) => CommitKeepsInv(table, start, s, upto);
    case _ =>
  }

  lemma {:induction false} CarriedIsSafe(table: set<Record>, start: int, processed: set<Record>, c: Cycle, keep: Record -> bool, n: nat)
    requires UniqueIds(table) && processed <= table && CycleInv(table, start, processed, c) && n <= c.n
    ensures AllSafe(table, start, processed, Carried(c.base, Rows(c), keep, n))
  {
    if n > 0 {
      CarriedIsSafe(table, start, processed, c, keep, n - 1);
      CurrentIsSafe(table, start, processed, c.(n := n));
    }
  }

  /**
   One poll. Unless it is stopped it emits exactly the unseen rows of a full drain, and it carries exactly their
   checkpoints; stopped, it emits the first of them or none. Every checkpoint it carries is safe once the rows it
   emitted are processed.
   */
  method PollBigObject(ghost table: set<Record>, ghost start: int, ghost processed: set<Record>, server: Server,
                       c: Checkpoint, cap: nat, keep: Record -> bool, stopDrain: nat -> bool, stopEmit: nat -> bool)
    returns (tokens: seq<Checkpoint>, emitted: seq<Record>, drained: seq<Record>, cut: bool)
    requires UniqueIds(table) && Honest(server, Selected(table, c.watermark), PAGE_LIMIT)
    requires processed <= table && Safe(table, start, processed, c)
    ensures cut && drained == [] ==> exists n: nat :: stopDrain(n)
    ensures cut && drained != [] ==> |emitted| < |Unseen(c.window, drained)| && stopEmit(|emitted|)
    ensures !cut || drained != [] ==> Drained(Selected(table, c.watermark), drained, cap)
    ensures !cut ==> emitted == Unseen(c.window, drained)
    ensures emitted <= Unseen(c.window, drained)
    ensures tokens == CarriedBy(c, emitted, keep, cut)
    ensures ToSet(emitted) <= Selected(table, c.watermark)
    ensures AllSafe(table, start, processed + ToSet(emitted), tokens)
  {
    var stopped, stalled;
    drained, stopped, stalled := DrainBigObject(table, server, c.watermark, cap, stopDrain);
    if stopped {
      return [], [], [], true;
    }
    var unseen := SkipSeen(c.window, drained);
    var n;
    tokens, n := EmitAll(c, unseen, keep, stopEmit);
    emitted, cut := unseen[..n], n < |unseen|;
    assert drained == [] ==> unseen == [];
    CarriedByPrefix(c, unseen, keep, n);
    EmittedIsSafe(table, start, processed, Cycle(c, drained, cap, n, true), keep);
  }

  /** The checkpoints of emitted rows, and one alone when a whole poll made no entry. */
  function CarriedBy(c: Checkpoint, emitted: seq<Record>, keep: Record -> bool, cut: bool): seq<Checkpoint> {
    var carried, last := Carried(c, emitted, keep, |emitted|), After(c, emitted, |emitted|);
    if !cut && carried == [] && last != c then [last] else carried
  }

  lemma {:induction false} CarriedByPrefix(c: Checkpoint, rows: seq<Record>, keep: Record -> bool, n: nat)
    requires n <= |rows|
    ensures After(c, rows[..n], n) == After(c, rows, n) && Carried(c, rows[..n], keep, n) == Carried(c, rows, keep, n)
  {
    PrefixWalk(c, rows, rows[..n], keep, n);
  }

  lemma {:induction false} PrefixWalk(c: Checkpoint, rows: seq<Record>, part: seq<Record>, keep: Record -> bool, n: nat)
    requires n <= |part| && part <= rows
    ensures After(c, part, n) == After(c, rows, n) && Carried(c, part, keep, n) == Carried(c, rows, keep, n)
  {
    if n > 0 {
      PrefixWalk(c, rows, part, keep, n - 1);
    }
  }

  lemma {:induction false} EmittedIsSafe(table: set<Record>, start: int, processed: set<Record>, c: Cycle, keep: Record -> bool)
    requires UniqueIds(table) && processed <= table && Safe(table, start, processed, c.base)
    requires Drained(Selected(table, c.base.watermark), c.drained, c.cap) && c.n <= |Rows(c)|
    ensures ToSet(Rows(c)[..c.n]) <= Selected(table, c.base.watermark)
    ensures var now := processed + ToSet(Rows(c)[..c.n]);
            AllSafe(table, start, now, Carried(c.base, Rows(c), keep, c.n)) && Safe(table, start, now, After(c.base, Rows(c), c.n))
  {
    var emitted := Rows(c)[..c.n];
    UnseenSpec(c.base.window, c.drained);
    SameMembers(c.drained);
    assert forall i :: 0 <= i < c.n ==> Rows(c)[i] in ToSet(c.drained);
    var now := processed + ToSet(emitted);
    MoreProcessedIsSafe(table, start, processed, now, c.base);
    assert CycleInv(table, start, now, c) by {
      assert forall i :: 0 <= i < c.n ==> Rows(c)[i] == emitted[i];
    }
    CarriedIsSafe(table, start, now, c, keep, c.n);
    CurrentIsSafe(table, start, now, c);
  }

  predicate Legal(table: set<Record>, s: State, run: seq<Action>)
    decreases |run|
  {
    run == [] || (Enabled(table, s, run[0]) && Legal(table, Apply(table, s, run[0]), run[1..]))
  }

  function Final(table: set<Record>, s: State, run: seq<Action>): State
    requires Legal(table, s, run)
    decreases |run|
  {
    if run == [] then s else Final(table, Apply(table, s, run[0]), run[1..])
  }

  lemma {:induction false} RunKeepsInv(table: set<Record>, start: int, s: State, run: seq<Action>)
    requires UniqueIds(table) && Inv(table, start, s) && Legal(table, s, run)
    ensures Inv(table, start, Final(table, s, run))
    decreases |run|
  {
    if run != [] {
      StepKeepsInv(table, start, s, run[0]);
      RunKeepsInv(table, start, Apply(table, s, run[0]), run[1..]);
    }
  }

  function Opening(start: int): State {
    State({}, [], Checkpoint(start, []), {}, None)
  }

  /**
   Across any number of cycles with any caps, lagging commits and crashes after any row, each losing what was not yet
   committed: every row from the starting watermark up to strictly below the committed one is settled.
   */
  lemma {:induction false} NothingBelowWatermarkIsLost(table: set<Record>, start: int, run: seq<Action>)
    requires UniqueIds(table) && Legal(table, Opening(start), run)
    ensures var s := Final(table, Opening(start), run);
            forall r :: r in table && start <= r.ts < s.committed.watermark ==> r in s.settled
  {
    RunKeepsInv(table, start, Opening(start), run);
  }

  // ----- progress of a capped cycle -----

  predicate OldestUnseen(rows: set<Record>, window: seq<string>, u: Record) {
    u in rows && u.id !in window && forall r :: r in rows && r.id !in window ==> u.ts <= r.ts
  }

  /** Remembered rows older than `u`, and those no newer. */
  function SeenBefore(rows: set<Record>, window: seq<string>, ts: int): set<Record> {
    set r | r in rows && r.id in window && r.ts < ts
  }

  function SeenUpTo(rows: set<Record>, window: seq<string>, ts: int): set<Record> {
    set r | r in rows && r.id in window && r.ts <= ts
  }

  lemma {:induction false} UnseenEmpty(window: seq<string>, drained: seq<Record>)
    ensures Unseen(window, drained) == [] <==> forall r :: r in drained ==> r.id in window
  {
    if drained != [] {
      var front, last := drained[..|drained| - 1], drained[|drained| - 1];
      UnseenEmpty(window, front);
      assert drained == front + [last];
    }
  }

  /**
   A complete cycle surely emits a row when the remembered rows no newer than the oldest unseen one are fewer than the
   cap; whichever way the server cuts ties.
   */
  lemma {:induction false} CycleEmits(rows: set<Record>, window: seq<string>, cap: nat, drained: seq<Record>, u: Record)
    requires Drained(rows, drained, cap) && OldestUnseen(rows, window, u)
    requires cap == 0 || |SeenUpTo(rows, window, u.ts)| < cap
    ensures Unseen(window, drained) != []
  {
    UnseenEmpty(window, drained);
    SameMembers(drained);
    if forall r :: r in drained ==> r.id in window {
      assert u !in ToSet(drained);
      assert ToSet(drained) <= SeenUpTo(rows, window, u.ts);
      SubsetSize(ToSet(drained), SeenUpTo(rows, window, u.ts));
      SizeOfDistinct(drained);
      assert false;
    }
  }

  /** It never emits a row when the remembered rows older than the oldest unseen one fill the cap: the cycle makes no progress, ever. */
  lemma {:induction false} CycleStarves(rows: set<Record>, window: seq<string>, cap: nat, drained: seq<Record>, u: Record)
    requires Drained(rows, drained, cap) && OldestUnseen(rows, window, u)
    requires 0 < cap <= |SeenBefore(rows, window, u.ts)|
    ensures Unseen(window, drained) == []
  {
    UnseenEmpty(window, drained);
    SameMembers(drained);
    SizeOfDistinct(drained);
    forall v | v in drained
      ensures v.id in window
    {
      var older := SeenBefore(rows, window, u.ts);
      var i :| 0 <= i < |drained| && drained[i] == v;
      if v.id !in window {
        assert older <= ToSet(drained) - {v};
        SubsetSize(older, ToSet(drained) - {v});
      }
    }
  }

  lemma {:induction false} SeqOf(rows: set<Record>) returns (s: seq<Record>)
    ensures Distinct(s) && ToSet(s) == rows
    decreases |rows|
  {
    if rows == {} {
      s := [];
    } else {
      var r :| r in rows;
      var rest := SeqOf(rows - {r});
      SameMembers(rest);
      s := rest + [r];
      ToSetAppend(rest, r);
    }
  }

  lemma {:induction false} ToSetAppend(s: seq<Record>, r: Record)
    ensures ToSet(s + [r]) == ToSet(s) + {r}
  {
    SameMembers(s);
    SameMembers(s + [r]);
  }

  /** The server may cut so that exactly the rows `kept` are drained, if no row outside is older than one inside. */
  lemma {:induction false} SomeDrain(rows: set<Record>, kept: set<Record>, cap: nat) returns (drained: seq<Record>)
    requires kept <= rows && 0 < cap == |kept|
    requires forall r, k :: r in rows && r !in kept && k in kept ==> k.ts <= r.ts
    ensures Drained(rows, drained, cap) && ToSet(drained) == kept
  {
    var s := SeqOf(kept);
    drained := SortByTime(s);
    SortSpec(s);
    SortKeepsRows(s);
    SizeOfDistinct(s);
    assert forall i :: 0 <= i < |drained| ==> drained[i] in ToSet(drained);
  }

  lemma {:induction false} SomeMissing(base: set<Record>, pool: set<Record>)
    requires |base| < |base + pool|
    ensures exists r :: r in pool && r !in base
  {
    if !exists r :: r in pool && r !in base {
      SubsetSize(base + pool, base);
    }
  }

  lemma {:induction false} Fill(base: set<Record>, pool: set<Record>, n: nat) returns (s: set<Record>)
    requires |base| <= n <= |base + pool|
    ensures base <= s <= base + pool && |s| == n
    decreases n - |base|
  {
    if |base| == n {
      s := base;
    } else {
      SomeMissing(base, pool);
      var r :| r in pool && r !in base;
      assert base + {r} + pool == base + pool;
      s := Fill(base + {r}, pool, n);
    }
  }

  /** In between, the server's cut among the rows as old as the oldest unseen one decides: it may emit ... */
  lemma {:induction false} TiesMayEmit(rows: set<Record>, window: seq<string>, cap: nat, u: Record) returns (drained: seq<Record>)
    requires OldestUnseen(rows, window, u)
    requires |SeenBefore(rows, window, u.ts)| < cap <= |SeenUpTo(rows, window, u.ts)|
    ensures Drained(rows, drained, cap) && Unseen(window, drained) != []
  {
    var before, upTo := SeenBefore(rows, window, u.ts), SeenUpTo(rows, window, u.ts);
    SubsetSize(upTo, before + {u} + upTo);
    var kept := Fill(before + {u}, upTo, cap);
    drained := SomeDrain(rows, kept, cap);
    SameMembers(drained);
    assert u in drained;
    UnseenEmpty(window, drained);
  }

  /** ... and it may not. */
  lemma {:induction false} TiesMayStarve(rows: set<Record>, window: seq<string>, cap: nat, u: Record) returns (drained: seq<Record>)
    requires OldestUnseen(rows, window, u)
    requires |SeenBefore(rows, window, u.ts)| < cap <= |SeenUpTo(rows, window, u.ts)|
    ensures Drained(rows, drained, cap) && Unseen(window, drained) == []
  {
    var before, upTo := SeenBefore(rows, window, u.ts), SeenUpTo(rows, window, u.ts);
    assert before + upTo == upTo;
    var hidden := Fill(before, upTo, cap);
    drained := SomeDrain(rows, hidden, cap);
    SameMembers(drained);
    UnseenEmpty(window, drained);
  }

  /** With a cap of one the row last seen hides every newer one. */
  lemma {:induction false} CapOfOneStarves(a: Record, b: Record, drained: seq<Record>)
    requires a.ts < b.ts && a.id != b.id && Drained(Selected({a, b}, a.ts), drained, 1)
    ensures Unseen([a.id], drained) == []
  {
    var rows := Selected({a, b}, a.ts);
    assert SeenBefore(rows, [a.id], b.ts) == {a};
    CycleStarves(rows, [a.id], 1, drained, b);
  }
}
