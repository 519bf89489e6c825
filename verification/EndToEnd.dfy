/**
 At-least-once end to end: polls of an ascending cursor feed the pipeline, the process dies at any point, and the next
 one resumes from the checkpoint found in the store (src/sf2loki/sources/eventlog_objects_source.py and
 src/sf2loki/app.py). A source polls any number of times and any number of objects; every poll of an object starts
 from the checkpoint the store holds at that moment, which may lag behind what was yielded.
 */
module EndToEnd {
  import opened Options
  import P = Pipeline
  import C = PipelineCauses
  import S = PipelineSafety
  import Q = BoundedQueue
  import Poll = AscendingPoll

  /** How an object's checkpoints are written as token values under its key, and how large its lines are. */
  datatype Format = Format(key: string, encode: Poll.Checkpoint -> string, decode: string -> Poll.Checkpoint, size: Poll.Row -> nat)

  ghost predicate RoundTrips(f: Format) {
    forall c :: f.decode(f.encode(c)) == c
  }

  function ToEntry(f: Format, e: Poll.Emission): P.Entry {
    P.Entry(f.key, f.encode(e.token), false, f.size(e.row), 0)
  }

  function ToEntries(f: Format, stream: seq<Poll.Emission>): (entries: seq<P.Entry>)
    ensures |entries| == |stream|
    ensures forall i :: 0 <= i < |stream| ==> entries[i] == ToEntry(f, stream[i])
  {
    if stream == [] then [] else ToEntries(f, stream[..|stream| - 1]) + [ToEntry(f, stream[|stream| - 1])]
  }

  /** The table, the checkpoint to start from, and which rows become entries. */
  datatype Source = Source(table: seq<Poll.Row>, start: Poll.Checkpoint, keep: Poll.Row -> bool)

  function Stream(src: Source): seq<Poll.Emission> {
    Poll.Stream(src.table, src.start, src.keep)
  }

  ghost predicate Ok(src: Source) {
    Poll.Frozen(src.table) && Poll.Behind(src.table, src.start)
  }

  /** The checkpoint once all rows still to come were passed. */
  function LastCheckpoint(src: Source): Poll.Checkpoint {
    var rows := Poll.Matching(src.table, Poll.CursorOf(src.start));
    Poll.Walk(src.start, rows, |rows|)
  }

  /** What one whole poll yields: its entries, or a lone token when rows were passed and none became an entry. */
  function PollEntries(f: Format, src: Source): seq<P.Entry> {
    if Stream(src) != [] then ToEntries(f, Stream(src))
    else if Poll.Matching(src.table, Poll.CursorOf(src.start)) != [] then
      [P.Entry(f.key, f.encode(LastCheckpoint(src)), true, 0, 0)]
    else []
  }

  // ----- one life of the process -----

  datatype Run = Run(n: nat, actions: seq<P.Action>)

  predicate Legal(cfg: P.Config, run: Run) {
    P.Legal(cfg, P.Opening(run.n), run.actions)
  }

  function LaneAfter(cfg: P.Config, run: Run): P.Lane
    requires Legal(cfg, run)
  {
    P.Final(cfg, P.Opening(run.n), run.actions)
  }

  function Cut(run: Run, at: nat): Run
    requires at <= |run.actions|
  {
    run.(actions := run.actions[..at])
  }

  /** The checkpoint a poll loads: the one committed in this life, or the one the process found. */
  function Stored(f: Format, src: Source, lane: P.Lane): Poll.Checkpoint {
    if f.key in lane.committed then f.decode(lane.committed[f.key]) else src.start
  }

  function OfKey(entries: seq<P.Entry>, k: string): seq<P.Entry> {
    if entries == [] then []
    else
      var last := entries[|entries| - 1];
      OfKey(entries[..|entries| - 1], k) + (if last.key == k then [last] else [])
  }

  /** The entries yielded for the object so far. */
  function Keyed(f: Format, p: nat, lane: P.Lane): seq<P.Entry> {
    if p < |lane.io.yielded| then OfKey(lane.io.yielded[p], f.key) else []
  }

  /**
   The object's entries come from polls that began when the run had taken `ats[0]`, `ats[1]`, ... steps. Each poll
   yields the first part of what the checkpoint stored at its beginning leaves to yield.
   */
  ghost predicate Polled(cfg: P.Config, f: Format, src: Source, p: nat, run: Run, ats: seq<nat>)
    requires Legal(cfg, run)
    decreases |ats|
  {
    if ats == [] then Keyed(f, p, LaneAfter(cfg, run)) == []
    else
      var last := ats[|ats| - 1];
      && last <= |run.actions|
      && Legal(cfg, Cut(run, last))
      && Polled(cfg, f, src, p, Cut(run, last), ats[..|ats| - 1])
      && Extends(f, src.(start := Stored(f, src, LaneAfter(cfg, Cut(run, last)))),
                 Keyed(f, p, LaneAfter(cfg, Cut(run, last))), Keyed(f, p, LaneAfter(cfg, run)))
  }

  /** From `before` to `after` the first part of a poll of `src` was added. */
  predicate Extends(f: Format, src: Source, before: seq<P.Entry>, after: seq<P.Entry>) {
    before <= after && after[|before|..] <= PollEntries(f, src)
  }

  /** A life: a run of the lane up to the first abandoned batch, keys owned by sources, the object polled. */
  ghost predicate Life(cfg: P.Config, f: Format, src: Source, owner: string -> nat, run: Run, ats: seq<nat>) {
    && Legal(cfg, run)
    && P.Undisturbed(LaneAfter(cfg, run).closed)
    && S.OneSourcePerKey(owner, LaneAfter(cfg, run).io.yielded)
    && Polled(cfg, f, src, owner(f.key), run, ats)
  }

  /** Loki took the entry or it was dropped for a reason. */
  predicate Ended(lane: P.Lane, p: nat, e: P.Entry) {
    e in Q.Of(p, P.Flat(P.EndsOf(lane.closed)))
  }

  /** The first `n` entries of the stream have ended. */
  predicate EndedUpTo(f: Format, p: nat, lane: P.Lane, stream: seq<Poll.Emission>, n: nat) {
    n <= |stream| && forall i :: 0 <= i < n ==> Ended(lane, p, ToEntry(f, stream[i]))
  }

  // ----- the filter by key -----

  lemma {:induction false} OfKeyConcat(a: seq<P.Entry>, b: seq<P.Entry>, k: string)
    ensures OfKey(a + b, k) == OfKey(a, k) + OfKey(b, k)
  {
    if b == [] {
      assert a + b == a;
    } else {
      var front := b[..|b| - 1];
      OfKeyConcat(a, front, k);
      assert (a + b)[..|a + b| - 1] == a + front;
    }
  }

  lemma {:induction false} OfKeyPrefix(a: seq<P.Entry>, b: seq<P.Entry>, k: string)
    requires a <= b
    ensures OfKey(a, k) <= OfKey(b, k)
  {
    assert b == a + b[|a|..];
    OfKeyConcat(a, b[|a|..], k);
  }

  /** The token of a key is that of the last entry of the key. */
  lemma {:induction false} TokenOfKey(entries: seq<P.Entry>, k: string)
    ensures var keyed := OfKey(entries, k);
            S.Token(entries, k) == if keyed == [] then None else Some(keyed[|keyed| - 1].value)
  {
    if entries != [] {
      TokenOfKey(entries[..|entries| - 1], k);
    }
  }

  /** A real entry of a key is among the real entries. */
  lemma {:induction false} KeyedIsReal(entries: seq<P.Entry>, k: string, i: nat)
    requires i < |OfKey(entries, k)| && !OfKey(entries, k)[i].only
    ensures OfKey(entries, k)[i] in S.RealOnes(entries)
  {
    var front := entries[..|entries| - 1];
    if i < |OfKey(front, k)| {
      KeyedIsReal(front, k, i);
    }
  }

  // ----- prefixes of a run -----

  lemma {:induction false} SplitRun(cfg: P.Config, s: P.Lane, run: seq<P.Action>, at: nat)
    requires P.Legal(cfg, s, run) && at <= |run|
    ensures P.Legal(cfg, s, run[..at]) && P.Legal(cfg, P.Final(cfg, s, run[..at]), run[at..])
    ensures P.Final(cfg, s, run) == P.Final(cfg, P.Final(cfg, s, run[..at]), run[at..])
    decreases |run|
  {
    if at == 0 {
      assert run[..0] == [] && run[0..] == run;
    } else {
      SplitRun(cfg, P.Apply(cfg, s, run[0]), run[1..], at - 1);
      assert run[..at][1..] == run[1..][..at - 1] && run[at..] == run[1..][at - 1..];
    }
  }

  /** Ends stay. */
  lemma {:induction false} EndsStay(a: seq<P.Closed>, b: seq<P.Closed>, p: nat)
    requires a <= b
    ensures Q.Of(p, P.Flat(P.EndsOf(a))) <= Q.Of(p, P.Flat(P.EndsOf(b)))
    decreases |b|
  {
    if |a| < |b| {
      var front, last := b[..|b| - 1], b[|b| - 1];
      EndsStay(a, front, p);
      P.FlatConcat(P.EndsOf(front), if last.Settled? then last.ends else []);
      Q.OfConcat(p, P.Flat(P.EndsOf(front)), P.Flat(if last.Settled? then last.ends else []));
    } else {
      assert a == b;
    }
  }

  lemma {:induction false} EndedStays(before: P.Lane, after: P.Lane, p: nat, f: Format, stream: seq<Poll.Emission>, n: nat)
    requires before.closed <= after.closed && EndedUpTo(f, p, before, stream, n)
    ensures EndedUpTo(f, p, after, stream, n)
  {
    EndsStay(before.closed, after.closed, p);
  }

  /** What holds along a run of the life before it is cut. */
  lemma {:induction false} CutIsLife(cfg: P.Config, f: Format, src: Source, owner: string -> nat, run: Run, ats: seq<nat>)
    requires Life(cfg, f, src, owner, run, ats) && ats != []
    ensures Life(cfg, f, src, owner, Cut(run, ats[|ats| - 1]), ats[..|ats| - 1])
    ensures LaneAfter(cfg, Cut(run, ats[|ats| - 1])).closed <= LaneAfter(cfg, run).closed
  {
    var at := ats[|ats| - 1];
    var s := P.Opening(run.n);
    SplitRun(cfg, s, run.actions, at);
    var before := P.Final(cfg, s, run.actions[..at]);
    S.ClosedGrows(cfg, before, run.actions[at..]);
    YieldedGrows(cfg, before, run.actions[at..], owner);
  }

  lemma {:induction false} YieldedGrows(cfg: P.Config, s: P.Lane, run: seq<P.Action>, owner: string -> nat)
    requires P.Legal(cfg, s, run) && S.OneSourcePerKey(owner, P.Final(cfg, s, run).io.yielded)
    ensures S.OneSourcePerKey(owner, s.io.yielded)
    decreases |run|
  {
    if |run| > 0 {
      YieldedGrows(cfg, P.Apply(cfg, s, run[0]), run[1..], owner);
      StepYields(cfg, s, run[0]);
    }
  }

  lemma {:induction false} StepYields(cfg: P.Config, s: P.Lane, a: P.Action)
    requires P.Enabled(cfg, s, a)
    ensures var t := P.Apply(cfg, s, a);
            |t.io.yielded| == |s.io.yielded| && forall p :: 0 <= p < |s.io.yielded| ==> s.io.yielded[p] <= t.io.yielded[p]
  {
  }

  // ----- a token and what it leaves -----

  /** Checkpoint `c` leaves exactly the entries of the stream from `n` on. */
  ghost predicate Leaves(src: Source, c: Poll.Checkpoint, n: nat) {
    n <= |Stream(src)| && Ok(src.(start := c)) && Stream(src.(start := c)) == Stream(src)[n..]
  }

  /** The lone token of a poll without entries leaves nothing. */
  lemma {:induction false} LoneTokenLeavesNothing(src: Source)
    requires Ok(src) && Stream(src) == []
    ensures Leaves(src, LastCheckpoint(src), 0)
  {
    var rows := Poll.Matching(src.table, Poll.CursorOf(src.start));
    Poll.WalkLeavesRest(src.table, src.start, |rows|);
    Poll.WalkStaysBehind(src.table, src.start, |rows|);
  }

  lemma {:induction false} EntryLeavesRest(src: Source, t: nat)
    requires Ok(src) && t < |Stream(src)|
    ensures Leaves(src, Stream(src)[t].token, t + 1)
  {
    Poll.ResumeYieldsRest(src.table, src.start, src.keep, t);
  }

  lemma {:induction false} LeavesTwice(src: Source, c: Poll.Checkpoint, n: nat, d: Poll.Checkpoint, m: nat)
    requires Leaves(src, c, n) && Leaves(src.(start := c), d, m)
    ensures Leaves(src, d, n + m)
  {
    assert Stream(src)[n..][m..] == Stream(src)[n + m..];
  }

  /**
   The t-th entry of a poll from `c`: its token leaves `n` entries behind, and those that `c` had not left behind are
   among the first `t + 1` entries of the poll.
   */
  lemma {:induction false} PollEntryLeaves(f: Format, src: Source, c: Poll.Checkpoint, m: nat, t: nat) returns (n: nat)
    requires RoundTrips(f) && Leaves(src, c, m) && t < |PollEntries(f, src.(start := c))|
    ensures var entries := PollEntries(f, src.(start := c));
            && m <= n && Leaves(src, f.decode(entries[t].value), n)
            && (forall i :: m <= i < n ==> i - m <= t && entries[i - m] == ToEntry(f, Stream(src)[i]))
  {
    var poll := src.(start := c);
    if Stream(poll) != [] {
      EntryLeavesRest(poll, t);
      n := m + t + 1;
      LeavesTwice(src, c, m, Stream(poll)[t].token, t + 1);
      forall i | m <= i < n
        ensures PollEntries(f, poll)[i - m] == ToEntry(f, Stream(src)[i])
      {
        assert Stream(poll)[i - m] == Stream(src)[i];
      }
    } else {
      LoneTokenLeavesNothing(poll);
      n := m;
      LeavesTwice(src, c, m, LastCheckpoint(poll), 0);
    }
  }

  /** An entry is among the first `m` that were yielded for the object, or ended before. */
  predicate Handled(f: Format, p: nat, lane: P.Lane, keyed: seq<P.Entry>, m: nat, e: P.Entry) {
    Ended(lane, p, e) || (m <= |keyed| && e in keyed[..m])
  }

  ghost predicate HandledUpTo(f: Format, p: nat, lane: P.Lane, keyed: seq<P.Entry>, m: nat, stream: seq<Poll.Emission>, n: nat) {
    n <= |stream| && forall i :: 0 <= i < n ==> Handled(f, p, lane, keyed, m, ToEntry(f, stream[i]))
  }

  /** The entry at `m - 1` lies in the last poll. */
  lemma {:induction false} LocateInPoll(f: Format, src: Source, p: nat, before: P.Lane, lane: P.Lane, c: Poll.Checkpoint, settled: nat,
                                        prior: seq<P.Entry>, keyed: seq<P.Entry>, m: nat)
    returns (n: nat)
    requires RoundTrips(f) && Leaves(src, c, settled) && EndedUpTo(f, p, before, Stream(src), settled)
    requires before.closed <= lane.closed && Extends(f, src.(start := c), prior, keyed) && |prior| < m <= |keyed|
    ensures Leaves(src, f.decode(keyed[m - 1].value), n) && HandledUpTo(f, p, lane, keyed, m, Stream(src), n)
  {
    var entries, t := PollEntries(f, src.(start := c)), m - 1 - |prior|;
    var added := keyed[|prior|..];
    assert added[t] == keyed[m - 1] && added[t] == entries[t];
    n := PollEntryLeaves(f, src, c, settled, t);
    EndedStays(before, lane, p, f, Stream(src), settled);
    forall i | 0 <= i < n
      ensures Handled(f, p, lane, keyed, m, ToEntry(f, Stream(src)[i]))
    {
      if i >= settled {
        var j := i - settled;
        assert entries[i - settled] == ToEntry(f, Stream(src)[i]) && j <= t < |added|;
        assert entries[j] == added[j] == keyed[|prior| + j];
        assert keyed[..m][|prior| + j] == keyed[|prior| + j];
      }
    }
  }

  /** Where the first `m` entries of the object lead: the checkpoint of the last one leaves `n` entries of the stream behind. */
  lemma {:induction false} Locate(cfg: P.Config, f: Format, src: Source, owner: string -> nat, run: Run, ats: seq<nat>, m: nat)
    returns (n: nat)
    requires Ok(src) && RoundTrips(f) && Life(cfg, f, src, owner, run, ats)
    requires 0 < m <= |Keyed(f, owner(f.key), LaneAfter(cfg, run))|
    ensures var keyed := Keyed(f, owner(f.key), LaneAfter(cfg, run));
            && Leaves(src, f.decode(keyed[m - 1].value), n)
            && HandledUpTo(f, owner(f.key), LaneAfter(cfg, run), keyed, m, Stream(src), n)
    decreases |ats|, 0
  {
    var p, lane := owner(f.key), LaneAfter(cfg, run);
    var keyed := Keyed(f, p, lane);
    var earlier := Cut(run, ats[|ats| - 1]);
    CutIsLife(cfg, f, src, owner, run, ats);
    var before := LaneAfter(cfg, earlier);
    var prior := Keyed(f, p, before);
    if m <= |prior| {
      n := Locate(cfg, f, src, owner, earlier, ats[..|ats| - 1], m);
      HandledStays(f, p, before, lane, prior, keyed, m, Stream(src), n);
    } else {
      var settled := LifeSettles(cfg, f, src, owner, earlier, ats[..|ats| - 1]);
      n := LocateInPoll(f, src, p, before, lane, Stored(f, src, before), settled, prior, keyed, m);
    }
  }

  lemma {:induction false} HandledStays(f: Format, p: nat, before: P.Lane, lane: P.Lane, prior: seq<P.Entry>, keyed: seq<P.Entry>, m: nat,
                                        stream: seq<Poll.Emission>, n: nat)
    requires before.closed <= lane.closed && prior <= keyed && m <= |prior| && HandledUpTo(f, p, before, prior, m, stream, n)
    ensures HandledUpTo(f, p, lane, keyed, m, stream, n)
  {
    EndsStay(before.closed, lane.closed, p);
    assert keyed[..m] == prior[..m];
    forall i | 0 <= i < n
      ensures Handled(f, p, lane, keyed, m, ToEntry(f, stream[i]))
    {
      assert Handled(f, p, before, prior, m, ToEntry(f, stream[i]));
    }
  }

  /** What was flushed of the object has ended, so what is handled has ended. */
  lemma {:induction false} HandledHasEnded(f: Format, p: nat, lane: P.Lane, first: seq<P.Entry>, keyed: seq<P.Entry>, stream: seq<Poll.Emission>, n: nat)
    requires S.RealOnes(first) == Q.Of(p, P.Flat(P.EndsOf(lane.closed)))
    requires OfKey(first, f.key) <= keyed && HandledUpTo(f, p, lane, keyed, |OfKey(first, f.key)|, stream, n)
    ensures EndedUpTo(f, p, lane, stream, n)
  {
    var flushed := OfKey(first, f.key);
    assert keyed[..|flushed|] == flushed;
    forall i | 0 <= i < n
      ensures Ended(lane, p, ToEntry(f, stream[i]))
    {
      var e := ToEntry(f, stream[i]);
      assert Handled(f, p, lane, keyed, |flushed|, e);
      if e in flushed {
        var j :| 0 <= j < |flushed| && flushed[j] == e;
        KeyedIsReal(first, f.key, j);
      }
    }
  }

  /**
   Stop a life anywhere: the entries before the checkpoint in the store have ended, and polling from that checkpoint
   yields exactly the entries after it.
   */
  lemma {:induction false} LifeSettles(cfg: P.Config, f: Format, src: Source, owner: string -> nat, run: Run, ats: seq<nat>)
    returns (settled: nat)
    requires Ok(src) && RoundTrips(f) && Life(cfg, f, src, owner, run, ats)
    ensures EndedUpTo(f, owner(f.key), LaneAfter(cfg, run), Stream(src), settled)
    ensures Leaves(src, Stored(f, src, LaneAfter(cfg, run)), settled)
    decreases |ats|, 1
  {
    var p, lane := owner(f.key), LaneAfter(cfg, run);
    if f.key in lane.committed {
      S.CommittedMeansSettled(cfg, run.n, run.actions, owner, f.key);
      var first := Q.Of(p, P.Past(lane.closed));
      var m := FlushedIsYielded(f, p, lane, first);
      settled := Locate(cfg, f, src, owner, run, ats, m);
      HandledHasEnded(f, p, lane, first, Keyed(f, p, lane), Stream(src), settled);
    } else {
      settled := 0;
    }
  }

  /** The object's flushed entries are the first ones yielded for it, and the committed token is that of the last one. */
  lemma {:induction false} FlushedIsYielded(f: Format, p: nat, lane: P.Lane, first: seq<P.Entry>) returns (m: nat)
    requires f.key in lane.committed && S.Justified(lane, p, f.key, lane.committed[f.key], first)
    ensures m == |OfKey(first, f.key)| > 0 && OfKey(first, f.key) <= Keyed(f, p, lane)
    ensures Keyed(f, p, lane)[m - 1].value == lane.committed[f.key]
  {
    m := |OfKey(first, f.key)|;
    TokenOfKey(first, f.key);
    OfKeyPrefix(first, lane.io.yielded[p], f.key);
  }

  /** Kill the process anywhere, and every entry that ended did so for a reason. */
  lemma {:induction false} CrashLosesNothing(cfg: P.Config, f: Format, src: Source, owner: string -> nat, run: Run, ats: seq<nat>)
    returns (settled: nat)
    requires Ok(src) && RoundTrips(f) && Life(cfg, f, src, owner, run, ats)
    ensures var lane := LaneAfter(cfg, run);
            && EndedUpTo(f, owner(f.key), lane, Stream(src), settled)
            && Leaves(src, Stored(f, src, lane), settled)
            && C.AllCaused(cfg, P.Opening(run.n), run.actions, P.EndsOf(lane.closed), 0)
  {
    settled := LifeSettles(cfg, f, src, owner, run, ats);
    S.ClosedEndsAreCaused(cfg, run.n, run.actions);
  }

  // ----- any number of lives -----

  /** A life with the polls it made. */
  datatype Polls = Polls(run: Run, ats: seq<nat>)

  function NextSource(cfg: P.Config, f: Format, src: Source, run: Run): Source
    requires Legal(cfg, run)
  {
    src.(start := Stored(f, src, LaneAfter(cfg, run)))
  }

  /** Lives one after the other, each from what the one before left in the store. */
  ghost predicate Lives(cfg: P.Config, f: Format, src: Source, owner: string -> nat, lives: seq<Polls>)
    decreases |lives|
  {
    |lives| == 0
    || (&& Life(cfg, f, src, owner, lives[0].run, lives[0].ats)
        && Lives(cfg, f, NextSource(cfg, f, src, lives[0].run), owner, lives[1..]))
  }

  /** The source as the process after all these lives finds it. */
  ghost function SourceAfter(cfg: P.Config, f: Format, src: Source, owner: string -> nat, lives: seq<Polls>): Source
    requires Lives(cfg, f, src, owner, lives)
    decreases |lives|
  {
    if |lives| == 0 then src else SourceAfter(cfg, f, NextSource(cfg, f, src, lives[0].run), owner, lives[1..])
  }

  /** An entry ended in a life, all of whose ends have a reason. */
  ghost predicate EndedIn(cfg: P.Config, p: nat, run: Run, e: P.Entry) {
    && Legal(cfg, run)
    && Ended(LaneAfter(cfg, run), p, e)
    && C.AllCaused(cfg, P.Opening(run.n), run.actions, P.EndsOf(LaneAfter(cfg, run).closed), 0)
  }

  ghost predicate EndedInSome(cfg: P.Config, p: nat, lives: seq<Polls>, e: P.Entry) {
    exists i :: 0 <= i < |lives| && EndedIn(cfg, p, lives[i].run, e)
  }

  ghost predicate AllEndedInSome(cfg: P.Config, f: Format, p: nat, lives: seq<Polls>, stream: seq<Poll.Emission>, n: nat) {
    n <= |stream| && forall i :: 0 <= i < n ==> EndedInSome(cfg, p, lives, ToEntry(f, stream[i]))
  }

  lemma {:induction false} LaterLife(cfg: P.Config, p: nat, lives: seq<Polls>, e: P.Entry)
    requires |lives| > 0 && EndedInSome(cfg, p, lives[1..], e)
    ensures EndedInSome(cfg, p, lives, e)
  {
    var j :| 0 <= j < |lives[1..]| && EndedIn(cfg, p, lives[1..][j].run, e);
    assert lives[1..][j] == lives[j + 1];
  }

  lemma {:induction false} FirstLife(cfg: P.Config, f: Format, p: nat, lives: seq<Polls>, stream: seq<Poll.Emission>, n: nat)
    requires |lives| > 0 && Legal(cfg, lives[0].run) && EndedUpTo(f, p, LaneAfter(cfg, lives[0].run), stream, n)
    requires C.AllCaused(cfg, P.Opening(lives[0].run.n), lives[0].run.actions, P.EndsOf(LaneAfter(cfg, lives[0].run).closed), 0)
    ensures AllEndedInSome(cfg, f, p, lives, stream, n)
  {
    forall i | 0 <= i < n
      ensures EndedInSome(cfg, p, lives, ToEntry(f, stream[i]))
    {
      assert EndedIn(cfg, p, lives[0].run, ToEntry(f, stream[i]));
    }
  }

  lemma {:induction false} JoinLives(cfg: P.Config, f: Format, p: nat, lives: seq<Polls>, stream: seq<Poll.Emission>, here: nat,
                                     rest: seq<Poll.Emission>, later: nat)
    requires |lives| > 0 && AllEndedInSome(cfg, f, p, lives, stream, here) && AllEndedInSome(cfg, f, p, lives[1..], rest, later)
    requires rest == stream[here..]
    ensures AllEndedInSome(cfg, f, p, lives, stream, here + later) && rest[later..] == stream[here + later..]
  {
    forall i | here <= i < here + later
      ensures EndedInSome(cfg, p, lives, ToEntry(f, stream[i]))
    {
      assert stream[i] == rest[i - here];
      LaterLife(cfg, p, lives, ToEntry(f, stream[i]));
    }
  }

  lemma {:induction false} SourceAfterFirst(cfg: P.Config, f: Format, src: Source, owner: string -> nat, lives: seq<Polls>)
    requires |lives| > 0 && Lives(cfg, f, src, owner, lives)
    ensures Lives(cfg, f, NextSource(cfg, f, src, lives[0].run), owner, lives[1..])
    ensures SourceAfter(cfg, f, src, owner, lives) == SourceAfter(cfg, f, NextSource(cfg, f, src, lives[0].run), owner, lives[1..])
  {
  }

  /** The first of several lives. */
  lemma {:induction false} OneLife(cfg: P.Config, f: Format, src: Source, owner: string -> nat, lives: seq<Polls>) returns (here: nat)
    requires Ok(src) && RoundTrips(f) && |lives| > 0 && Life(cfg, f, src, owner, lives[0].run, lives[0].ats)
    ensures AllEndedInSome(cfg, f, owner(f.key), lives, Stream(src), here)
    ensures Ok(NextSource(cfg, f, src, lives[0].run)) && Stream(NextSource(cfg, f, src, lives[0].run)) == Stream(src)[here..]
  {
    here := CrashLosesNothing(cfg, f, src, owner, lives[0].run, lives[0].ats);
    FirstLife(cfg, f, owner(f.key), lives, Stream(src), here);
  }

  /** The first `settled` entries of the stream ended in some life, and the next process yields exactly the others. */
  ghost predicate Delivered(cfg: P.Config, f: Format, src: Source, owner: string -> nat, lives: seq<Polls>, settled: nat)
    requires Lives(cfg, f, src, owner, lives)
  {
    && AllEndedInSome(cfg, f, owner(f.key), lives, Stream(src), settled)
    && Stream(SourceAfter(cfg, f, src, owner, lives)) == Stream(src)[settled..]
  }

  lemma {:induction false} OneLifeMore(cfg: P.Config, f: Format, src: Source, owner: string -> nat, lives: seq<Polls>, here: nat, later: nat)
    requires |lives| > 0 && Lives(cfg, f, src, owner, lives) && AllEndedInSome(cfg, f, owner(f.key), lives, Stream(src), here)
    requires Stream(NextSource(cfg, f, src, lives[0].run)) == Stream(src)[here..]
    requires Delivered(cfg, f, NextSource(cfg, f, src, lives[0].run), owner, lives[1..], later)
    ensures Delivered(cfg, f, src, owner, lives, here + later)
  {
    var next := NextSource(cfg, f, src, lives[0].run);
    JoinLives(cfg, f, owner(f.key), lives, Stream(src), here, Stream(next), later);
    SourceAfterFirst(cfg, f, src, owner, lives);
  }

  /**
   At-least-once over any number of crashes: every entry of the first stream ended in some life, for a reason, or is
   still to be yielded by the next process.
   */
  lemma {:induction false} AtLeastOnce(cfg: P.Config, f: Format, src: Source, owner: string -> nat, lives: seq<Polls>)
    returns (settled: nat)
    requires Ok(src) && RoundTrips(f) && Lives(cfg, f, src, owner, lives)
    ensures Delivered(cfg, f, src, owner, lives, settled)
    decreases |lives|
  {
    if |lives| == 0 {
      settled := 0;
    } else {
      var here := OneLife(cfg, f, src, owner, lives);
      var later := AtLeastOnce(cfg, f, NextSource(cfg, f, src, lives[0].run), owner, lives[1..]);
      OneLifeMore(cfg, f, src, owner, lives, here, later);
      settled := here + later;
    }
  }
}
