/**
 Any number of cycles over one event type's files (src/sf2loki/sources/eventlogfile_source.py): each cycle starts from
 the committed checkpoint, commits lag behind and the process may die after any row. The set of files is frozen.
 */
module EventLogFileCycles {
  import opened Options
  import opened EventLogFile

  /** A cycle under way: its listing and the events it will produce, `n` of which have happened. */
  datatype Cycle = Cycle(cfg: Config, start: Checkpoint, files: seq<File>, log: seq<Event>, n: nat)

  /** A checkpoint yielded but not committed, and the files done up to then. */
  datatype Pending = Pending(token: Checkpoint, files: set<Meta>)

  /**
   `done` are the files whose rows were all yielded or filtered, or that were given up by age, in this life of the
   process. A commit comes only after all that was yielded before its token was pushed, so the files done by then
   become `settled`; a crash loses the others.
   */
  datatype State = State(done: set<Meta>, pending: seq<Pending>, committed: Checkpoint, settled: set<Meta>, cycle: Option<Cycle>)

  datatype Action = Begin(cfg: Config, listing: seq<File>, log: seq<Event>) | Emit | Finish | Commit(upto: nat) | Crash

  predicate OneVersion(universe: set<Meta>) {
    forall m, k :: m in universe && k in universe && m.id == k.id ==> m == k
  }

  /** The listing: files at or after the watermark in order, and none left out that is older than one listed. */
  predicate Honest(universe: set<Meta>, listing: seq<File>, start: Checkpoint) {
    && Listed(listing, start)
    && (forall i :: 0 <= i < |listing| && NonEmpty(listing[i]) ==> listing[i].meta in universe)
    && (forall m, i ::
          m in universe && start.last <= m.created && 0 <= i < |listing| && m.created < listing[i].meta.created
          ==> Lists(listing, m))
  }

  predicate Lists(listing: seq<File>, m: Meta) {
    exists j :: 0 <= j < |listing| && listing[j].meta == m && NonEmpty(listing[j])
  }

  predicate Enabled(universe: set<Meta>, s: State, a: Action) {
    match a
    case Begin(cfg, listing, log) =>
      && s.cycle.None?
      && Honest(universe, listing, s.committed)
      && Sound(cfg, Unprocessed(listing, s.committed.ids), s.committed, log)
    case Emit => s.cycle.Some? && s.cycle.value.n < |s.cycle.value.log|
    case Finish => s.cycle.Some?
    case Commit(upto) => upto < |s.pending|
    case Crash => true
  }

  /** The non-empty files done by the first `n` events of a cycle. */
  function DoneBy(c: Cycle, n: nat): set<Meta>
    requires n <= |c.log|
  {
    set f: nat | f < |c.files| && NonEmpty(c.files[f]) && Done(c.cfg, c.files, ProgressOf(c.log[..n]), f) :: c.files[f].meta
  }

  function Apply(universe: set<Meta>, s: State, a: Action): State
    requires Enabled(universe, s, a)
  {
    match a
    case Begin(cfg, listing, log) =>
      s.(cycle := Some(Cycle(cfg, s.committed, Unprocessed(listing, s.committed.ids), log, 0)))
    case Emit =>
      var c := s.cycle.value;
      var token, done := TokenOf(c.log[c.n]), s.done + DoneBy(c, c.n + 1);
      State(done, if token.Some? then s.pending + [Pending(token.value, done)] else s.pending, s.committed, s.settled,
            Some(c.(n := c.n + 1)))
    case Finish => s.(cycle := None)
    case Commit(upto) =>
      s.(pending := s.pending[upto + 1..], committed := s.pending[upto].token, settled := s.settled + s.pending[upto].files)
    case Crash => s.(done := s.settled, pending := [], cycle := None)
  }

  /** The checkpoint carries done files only, and every file from the base up to strictly below its watermark is done. */
  predicate Good(universe: set<Meta>, base: int, done: set<Meta>, c: Checkpoint) {
    && base <= c.last
    && (forall m :: m in c.ids ==> m in done)
    && (forall m :: m in universe && base <= m.created < c.last ==> m in done)
  }

  /** Every pending checkpoint is good given the files done up to it. */
  predicate PendingInv(universe: set<Meta>, base: int, s: State) {
    forall i :: 0 <= i < |s.pending| ==> s.pending[i].files <= s.done && Good(universe, base, s.pending[i].files, s.pending[i].token)
  }

  /** A cycle's files: what is older than one of them is among them or was done before. */
  predicate Complete(universe: set<Meta>, done: set<Meta>, start: Checkpoint, files: seq<File>) {
    && (forall f :: 0 <= f < |files| ==> files[f].meta.created >= start.last)
    && (forall f :: 0 <= f < |files| && NonEmpty(files[f]) ==> files[f].meta in universe)
    && (forall m, f ::
          m in universe && start.last <= m.created && 0 <= f < |files| && m.created < files[f].meta.created
          ==> m in done || Lists(files, m))
  }

  predicate CycleInv(universe: set<Meta>, base: int, done: set<Meta>, c: Cycle) {
    && c.n <= |c.log|
    && Good(universe, base, done, c.start)
    && Complete(universe, done, c.start, c.files)
    && Sound(c.cfg, c.files, c.start, c.log)
  }

  predicate Inv(universe: set<Meta>, base: int, s: State) {
    && s.settled <= s.done <= universe
    && Good(universe, base, s.settled, s.committed)
    && PendingInv(universe, base, s)
    && (s.cycle.Some? ==> CycleInv(universe, base, s.done, s.cycle.value))
  }

  lemma {:induction false} RecordedIsCarried(ids: seq<Meta>, id: string)
    requires Recorded(ids, id).Some?
    ensures Meta(id, Recorded(ids, id).value) in ids
  {
    if ids[|ids| - 1].id != id {
      RecordedIsCarried(ids[..|ids| - 1], id);
    }
  }

  /** A file skipped as processed is done. */
  lemma {:induction false} SkippedIsDone(universe: set<Meta>, base: int, done: set<Meta>, c: Checkpoint, m: Meta)
    requires OneVersion(universe) && done <= universe && Good(universe, base, done, c) && m in universe
    requires AlreadyProcessed(m, c.ids)
    ensures m in done
  {
    RecordedIsCarried(c.ids, m.id);
  }

  /** A listed file is still to be processed, or done. */
  lemma {:induction false} ListedIsKept(universe: set<Meta>, base: int, done: set<Meta>, c: Checkpoint, listing: seq<File>, m: Meta)
    requires OneVersion(universe) && done <= universe && Good(universe, base, done, c) && Listed(listing, c)
    requires m in universe && Lists(listing, m)
    ensures m in done || Lists(Unprocessed(listing, c.ids), m)
  {
    var j :| 0 <= j < |listing| && listing[j].meta == m && NonEmpty(listing[j]);
    if AlreadyProcessed(m, c.ids) {
      SkippedIsDone(universe, base, done, c, m);
    } else {
      UnprocessedSpec(listing, c);
      assert listing[j] in Unprocessed(listing, c.ids);
    }
  }

  lemma {:induction false} FilesComeFromListing(c: Checkpoint, listing: seq<File>, f: nat) returns (i: nat)
    requires Listed(listing, c) && f < |Unprocessed(listing, c.ids)|
    ensures i < |listing| && listing[i] == Unprocessed(listing, c.ids)[f]
  {
    UnprocessedSpec(listing, c);
    assert Unprocessed(listing, c.ids)[f] in listing;
    i :| 0 <= i < |listing| && listing[i] == Unprocessed(listing, c.ids)[f];
  }

  lemma {:induction false} FilesAreComplete(universe: set<Meta>, base: int, done: set<Meta>, c: Checkpoint, listing: seq<File>)
    requires OneVersion(universe) && done <= universe && Good(universe, base, done, c) && Honest(universe, listing, c)
    ensures Complete(universe, done, c, Unprocessed(listing, c.ids))
  {
    var files := Unprocessed(listing, c.ids);
    forall f | 0 <= f < |files|
      ensures files[f].meta.created >= c.last && (NonEmpty(files[f]) ==> files[f].meta in universe)
    {
      var i := FilesComeFromListing(c, listing, f);
    }
    forall m, f | m in universe && c.last <= m.created && 0 <= f < |files| && m.created < files[f].meta.created
      ensures m in done || Lists(files, m)
    {
      var i := FilesComeFromListing(c, listing, f);
      ListedIsKept(universe, base, done, c, listing, m);
    }
  }

  lemma {:induction false} MoreDoneIsGood(universe: set<Meta>, base: int, done: set<Meta>, more: set<Meta>, c: Checkpoint)
    requires Good(universe, base, done, c) && done <= more
    ensures Good(universe, base, more, c)
  {
  }

  /** A file marked by a checkpoint of the cycle is done by then. */
  lemma {:induction false} MarkedIsDone(c: Cycle, n: nat, m: Meta)
    requires n <= |c.log| && Marked(c.cfg, c.files, ProgressOf(c.log[..n]), m)
    ensures m in DoneBy(c, n)
  {
    var f: nat :| f < |c.files| && c.files[f].meta == m && NonEmpty(c.files[f]) && Done(c.cfg, c.files, ProgressOf(c.log[..n]), f);
  }

  lemma {:induction false} OlderIsDone(universe: set<Meta>, base: int, done: set<Meta>, c: Cycle, n: nat, token: Checkpoint, m: Meta)
    requires CycleInv(universe, base, done, c) && n <= |c.log| && Safe(c.cfg, c.files, c.start, ProgressOf(c.log[..n]), token)
    requires m in universe && base <= m.created < token.last
    ensures m in done || m in DoneBy(c, n)
  {
    if m.created >= c.start.last && m !in done {
      var f: nat :| f < |c.files| && token.last == c.files[f].meta.created;
      assert Lists(c.files, m);
      var j :| 0 <= j < |c.files| && c.files[j].meta == m && NonEmpty(c.files[j]);
      assert Marked(c.cfg, c.files, ProgressOf(c.log[..n]), m);
      MarkedIsDone(c, n, m);
    }
  }

  /** A safe checkpoint of a cycle is good once the files it did are counted. */
  lemma {:induction false} SafeIsGood(universe: set<Meta>, base: int, done: set<Meta>, c: Cycle, n: nat, token: Checkpoint)
    requires CycleInv(universe, base, done, c) && n <= |c.log| && Safe(c.cfg, c.files, c.start, ProgressOf(c.log[..n]), token)
    ensures Good(universe, base, done + DoneBy(c, n), token)
  {
    forall m | m in token.ids
      ensures m in done + DoneBy(c, n)
    {
      if m !in c.start.ids {
        MarkedIsDone(c, n, m);
      }
    }
    forall m | m in universe && base <= m.created < token.last
      ensures m in done + DoneBy(c, n)
    {
      OlderIsDone(universe, base, done, c, n, token, m);
    }
  }

  lemma {:induction false} TokenIsGood(universe: set<Meta>, base: int, done: set<Meta>, c: Cycle)
    requires CycleInv(universe, base, done, c) && c.n < |c.log| && TokenOf(c.log[c.n]).Some?
    ensures Good(universe, base, done + DoneBy(c, c.n + 1), TokenOf(c.log[c.n]).value)
  {
    EveryPrefixIsSafe(c.cfg, c.files, c.start, c.log, c.n);
    SafeIsGood(universe, base, done, c, c.n + 1, TokenOf(c.log[c.n]).value);
  }

  lemma {:induction false} CycleGoesOn(universe: set<Meta>, base: int, done: set<Meta>, c: Cycle, more: set<Meta>)
    requires CycleInv(universe, base, done, c) && c.n < |c.log| && done <= more
    ensures CycleInv(universe, base, more, c.(n := c.n + 1))
  {
    MoreDoneIsGood(universe, base, done, more, c.start);
  }

  lemma {:induction false} DoneIsInUniverse(universe: set<Meta>, base: int, done: set<Meta>, c: Cycle, n: nat)
    requires CycleInv(universe, base, done, c) && n <= |c.log|
    ensures DoneBy(c, n) <= universe
  {
  }

  lemma {:induction false} EmitKeepsInv(universe: set<Meta>, base: int, s: State)
    requires Inv(universe, base, s) && Enabled(universe, s, Emit)
    ensures Inv(universe, base, Apply(universe, s, Emit))
  {
    var c := s.cycle.value;
    CycleGoesOn(universe, base, s.done, c, s.done + DoneBy(c, c.n + 1));
    DoneIsInUniverse(universe, base, s.done, c, c.n + 1);
    if TokenOf(c.log[c.n]).Some? {
      TokenIsGood(universe, base, s.done, c);
    }
  }

  lemma {:induction false} StepKeepsInv(universe: set<Meta>, base: int, s: State, a: Action)
    requires OneVersion(universe) && Inv(universe, base, s) && Enabled(universe, s, a)
    ensures Inv(universe, base, Apply(universe, s, a))
  {
    match a
    case Begin(_, listing, _) =>
      MoreDoneIsGood(universe, base, s.settled, s.done, s.committed);
      FilesAreComplete(universe, base, s.done, s.committed, listing);
    case Emit => EmitKeepsInv(universe, base, s);
    case Commit(upto) =>
      MoreDoneIsGood(universe, base, s.pending[upto].files, s.settled + s.pending[upto].files, s.pending[upto].token);
    case _ =>
  }

  predicate Legal(universe: set<Meta>, s: State, run: seq<Action>)
    decreases |run|
  {
    run == [] || (Enabled(universe, s, run[0]) && Legal(universe, Apply(universe, s, run[0]), run[1..]))
  }

  function Final(universe: set<Meta>, s: State, run: seq<Action>): State
    requires Legal(universe, s, run)
    decreases |run|
  {
    if run == [] then s else Final(universe, Apply(universe, s, run[0]), run[1..])
  }

  lemma {:induction false} RunKeepsInv(universe: set<Meta>, base: int, s: State, run: seq<Action>)
    requires OneVersion(universe) && Inv(universe, base, s) && Legal(universe, s, run)
    ensures Inv(universe, base, Final(universe, s, run))
    decreases |run|
  {
    if run != [] {
      StepKeepsInv(universe, base, s, run[0]);
      RunKeepsInv(universe, base, Apply(universe, s, run[0]), run[1..]);
    }
  }

  function Opening(base: int): State {
    State({}, [], Checkpoint(base, []), {}, None)
  }

  /**
   Across any number of cycles, with any downloads, lagging commits and crashes after any row, each losing what was not
   yet committed: every non-empty file created from the first watermark up to strictly before the committed one is
   settled, its rows all yielded or filtered before a committed token, or given up by age.
   */
  lemma {:induction false} NoFileIsPassedOver(universe: set<Meta>, base: int, run: seq<Action>)
    requires OneVersion(universe) && Legal(universe, Opening(base), run)
    ensures var s := Final(universe, Opening(base), run);
            && (forall m :: m in universe && base <= m.created < s.committed.last ==> m in s.settled)
            && (forall m :: m in s.committed.ids ==> m in s.settled)
  {
    RunKeepsInv(universe, base, Opening(base), run);
  }

  // ----- a cycle in full -----

  /** The checkpoints carried by the first `n` events, in order. */
  function TokensOf(log: seq<Event>, n: nat): seq<Checkpoint>
    requires n <= |log|
  {
    if n == 0 then [] else TokensOf(log, n - 1) + (if TokenOf(log[n - 1]).Some? then [TokenOf(log[n - 1]).value] else [])
  }

  function PendingTokens(pending: seq<Pending>): (tokens: seq<Checkpoint>)
    ensures |tokens| == |pending| && forall i :: 0 <= i < |pending| ==> tokens[i] == pending[i].token
  {
    if pending == [] then [] else PendingTokens(pending[..|pending| - 1]) + [pending[|pending| - 1].token]
  }

  /** The run that begins a cycle and takes its first `n` events. */
  function CycleRun(cfg: Config, listing: seq<File>, log: seq<Event>, n: nat): seq<Action> {
    if n == 0 then [Begin(cfg, listing, log)] else CycleRun(cfg, listing, log, n - 1) + [Emit]
  }

  lemma {:induction false} RunOneMore(universe: set<Meta>, s: State, run: seq<Action>, a: Action)
    requires Legal(universe, s, run) && Enabled(universe, Final(universe, s, run), a)
    ensures Legal(universe, s, run + [a]) && Final(universe, s, run + [a]) == Apply(universe, Final(universe, s, run), a)
    decreases |run|
  {
    if run != [] {
      RunOneMore(universe, Apply(universe, s, run[0]), run[1..], a);
      assert (run + [a])[1..] == run[1..] + [a];
    }
  }

  /** The cycle after `n` of its events, with the checkpoints they carried in line to be committed. */
  predicate Underway(s: State, t: State, cfg: Config, files: seq<File>, log: seq<Event>, n: nat) {
    && n <= |log| && t.cycle == Some(Cycle(cfg, s.committed, files, log, n)) && t.committed == s.committed
    && PendingTokens(t.pending) == PendingTokens(s.pending) + TokensOf(log, n)
  }

  lemma {:induction false} EmitQueuesToken(universe: set<Meta>, s: State, t: State, cfg: Config, files: seq<File>, log: seq<Event>, n: nat)
    requires Underway(s, t, cfg, files, log, n) && n < |log|
    ensures Enabled(universe, t, Emit) && Underway(s, Apply(universe, t, Emit), cfg, files, log, n + 1)
  {
    var u := Apply(universe, t, Emit);
    QueuesToken(s, t, u, cfg, files, log, n);
  }

  lemma {:induction false} QueuesToken(s: State, t: State, u: State, cfg: Config, files: seq<File>, log: seq<Event>, n: nat)
    requires Underway(s, t, cfg, files, log, n) && n < |log|
    requires u.committed == t.committed && u.cycle == Some(t.cycle.value.(n := n + 1))
    requires u.pending == t.pending + (if TokenOf(log[n]).Some? then [Pending(TokenOf(log[n]).value, u.done)] else [])
    ensures Underway(s, u, cfg, files, log, n + 1)
  {
    if TokenOf(log[n]).Some? {
      PendingAppend(t.pending, Pending(TokenOf(log[n]).value, u.done));
      JoinTokens(PendingTokens(s.pending), TokensOf(log, n), TokenOf(log[n]).value);
    } else {
      assert t.pending + [] == t.pending;
      assert TokensOf(log, n + 1) == TokensOf(log, n);
    }
  }

  lemma {:induction false} PendingAppend(pending: seq<Pending>, p: Pending)
    ensures PendingTokens(pending + [p]) == PendingTokens(pending) + [p.token]
  {
    assert (pending + [p])[..|pending|] == pending;
  }

  lemma {:induction false} JoinTokens(a: seq<Checkpoint>, b: seq<Checkpoint>, c: Checkpoint)
    ensures a + b + [c] == a + (b + [c])
  {
  }

  lemma {:induction false} BeginStarts(universe: set<Meta>, s: State, cfg: Config, listing: seq<File>, log: seq<Event>)
    requires Enabled(universe, s, Begin(cfg, listing, log))
    ensures Legal(universe, s, [Begin(cfg, listing, log)])
    ensures Final(universe, s, [Begin(cfg, listing, log)]) == Apply(universe, s, Begin(cfg, listing, log))
    ensures Underway(s, Apply(universe, s, Begin(cfg, listing, log)), cfg, Unprocessed(listing, s.committed.ids), log, 0)
  {
    RunOneMore(universe, s, [], Begin(cfg, listing, log));
    assert [] + [Begin(cfg, listing, log)] == [Begin(cfg, listing, log)];
    assert PendingTokens(s.pending) + [] == PendingTokens(s.pending);
  }

  /** Every cycle can run to the end, and each checkpoint its events carry gets in line, in order. */
  lemma {:induction false} CycleYieldsTokens(universe: set<Meta>, s: State, cfg: Config, listing: seq<File>, log: seq<Event>, n: nat)
    requires Enabled(universe, s, Begin(cfg, listing, log)) && n <= |log|
    ensures var run := CycleRun(cfg, listing, log, n);
            && Legal(universe, s, run)
            && Underway(s, Final(universe, s, run), cfg, Unprocessed(listing, s.committed.ids), log, n)
  {
    if n == 0 {
      BeginStarts(universe, s, cfg, listing, log);
    } else {
      var run, files := CycleRun(cfg, listing, log, n - 1), Unprocessed(listing, s.committed.ids);
      CycleYieldsTokens(universe, s, cfg, listing, log, n - 1);
      OneEventMore(universe, s, run, cfg, files, log, n - 1);
    }
  }

  lemma {:induction false} OneEventMore(universe: set<Meta>, s: State, run: seq<Action>, cfg: Config, files: seq<File>, log: seq<Event>, n: nat)
    requires Legal(universe, s, run) && Underway(s, Final(universe, s, run), cfg, files, log, n) && n < |log|
    ensures Legal(universe, s, run + [Emit]) && Underway(s, Final(universe, s, run + [Emit]), cfg, files, log, n + 1)
  {
    EmitQueuesToken(universe, s, Final(universe, s, run), cfg, files, log, n);
    RunOneMore(universe, s, run, Emit);
  }

  /** Committing any of them makes it the checkpoint the next cycle starts from. */
  lemma {:induction false} CommitMovesOn(universe: set<Meta>, s: State, upto: nat)
    requires Enabled(universe, s, Commit(upto))
    ensures var t := Apply(universe, s, Commit(upto));
            t.committed == PendingTokens(s.pending)[upto] && PendingTokens(t.pending) == PendingTokens(s.pending)[upto + 1..]
  {
  }
}
