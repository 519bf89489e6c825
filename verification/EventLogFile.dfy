/**
 Event log files (src/sf2loki/sources/eventlogfile_source.py): the carried-id window that tells processed files from
 new ones, and one cycle over the listed files of one event type.

 CreatedDate is an integer. A file's body is what its download delivers in this cycle.
 */
module EventLogFile {
  import opened Options

  const MAX_CARRIED_IDS: nat := 200

  /** A file as listed, and a carried pair: a daily file may be regenerated under the same id with a newer date. */
  datatype Meta = Meta(id: string, created: int)

  /** The carried checkpoint. */
  datatype Checkpoint = Checkpoint(last: int, ids: seq<Meta>)

  // ----- the carried window -----

  function Without(ids: seq<Meta>, id: string): seq<Meta> {
    if ids == [] then []
    else Without(ids[..|ids| - 1], id) + (if ids[|ids| - 1].id == id then [] else [ids[|ids| - 1]])
  }

  /** The pairs that are (or are not) at the given date, in order. */
  function Split(ids: seq<Meta>, created: int, at: bool): seq<Meta> {
    if ids == [] then []
    else Split(ids[..|ids| - 1], created, at) + (if (ids[|ids| - 1].created == created) == at then [ids[|ids| - 1]] else [])
  }

  function Tail(ids: seq<Meta>): seq<Meta> {
    if |ids| > MAX_CARRIED_IDS then ids[|ids| - MAX_CARRIED_IDS..] else ids
  }

  /** Fold a processed file into the window: its older pair goes, all pairs at the new date stay, older ones are capped. */
  function Append(ids: seq<Meta>, m: Meta): seq<Meta> {
    var combined := Without(ids, m.id) + [m];
    Tail(Split(combined, m.created, false)) + Split(combined, m.created, true)
  }

  /** The date recorded for an id; the last pair wins. */
  function Recorded(ids: seq<Meta>, id: string): Option<int> {
    if ids == [] then None
    else if ids[|ids| - 1].id == id then Some(ids[|ids| - 1].created)
    else Recorded(ids[..|ids| - 1], id)
  }

  predicate AlreadyProcessed(m: Meta, ids: seq<Meta>) {
    Recorded(ids, m.id).Some? && m.created <= Recorded(ids, m.id).value
  }

  predicate UniqueIds(ids: seq<Meta>) {
    forall i, j :: 0 <= i < j < |ids| ==> ids[i].id != ids[j].id
  }

  lemma {:induction false} WithoutSpec(ids: seq<Meta>, id: string)
    ensures forall p :: p in Without(ids, id) <==> p in ids && p.id != id
    ensures UniqueIds(ids) ==> UniqueIds(Without(ids, id))
  {
    if ids != [] {
      var front, last := ids[..|ids| - 1], ids[|ids| - 1];
      WithoutSpec(front, id);
      assert ids == front + [last];
      if UniqueIds(ids) {
        assert forall i :: 0 <= i < |front| ==> front[i].id != last.id;
        assert forall p :: p in front ==> p.id != last.id;
      }
    }
  }

  lemma {:induction false} SplitSpec(ids: seq<Meta>, created: int, at: bool)
    ensures forall p :: p in Split(ids, created, at) <==> p in ids && (p.created == created) == at
    ensures UniqueIds(ids) ==> UniqueIds(Split(ids, created, at))
  {
    if ids != [] {
      var front, last := ids[..|ids| - 1], ids[|ids| - 1];
      SplitSpec(front, created, at);
      assert ids == front + [last];
      if UniqueIds(ids) {
        assert forall i :: 0 <= i < |front| ==> front[i].id != last.id;
        assert forall p :: p in front ==> p.id != last.id;
      }
    }
  }

  lemma {:induction false} UniqueConcat(a: seq<Meta>, b: seq<Meta>)
    requires UniqueIds(a) && UniqueIds(b) && forall p, q :: p in a && q in b ==> p.id != q.id
    ensures UniqueIds(a + b)
  {
    forall i, j | 0 <= i < j < |a + b|
      ensures (a + b)[i].id != (a + b)[j].id
    {
      if i < |a| <= j {
        assert a[i] in a && b[j - |a|] in b;
      }
    }
  }

  lemma {:induction false} SameIdSamePair(ids: seq<Meta>, p: Meta, q: Meta)
    requires UniqueIds(ids) && p in ids && q in ids && p.id == q.id
    ensures p == q
  {
  }

  /** The new window holds only old pairs and the new one, and every old pair at the new date that has another id. */
  predicate Appended(ids: seq<Meta>, m: Meta, window: seq<Meta>) {
    && UniqueIds(window) && m in window
    && (forall p :: p in window ==> p == m || p in ids)
    && (forall p :: p in ids && p.created == m.created && p.id != m.id ==> p in window)
  }

  lemma {:induction false} JoinParts(combined: seq<Meta>, older: seq<Meta>, at: seq<Meta>, created: int)
    requires UniqueIds(older) && UniqueIds(at) && UniqueIds(combined)
    requires forall p :: p in older ==> p in combined && p.created != created
    requires forall p :: p in at ==> p in combined && p.created == created
    ensures UniqueIds(older + at)
  {
    forall p, q | p in older && q in at
      ensures p.id != q.id
    {
      if p.id == q.id {
        SameIdSamePair(combined, p, q);
      }
    }
    UniqueConcat(older, at);
  }

  /** The file's older pair replaced by the new one. */
  lemma {:induction false} CombinedSpec(ids: seq<Meta>, m: Meta)
    requires UniqueIds(ids)
    ensures var combined := Without(ids, m.id) + [m];
            && UniqueIds(combined) && m in combined
            && (forall p :: p in combined ==> p == m || p in ids)
            && (forall p :: p in ids && p.id != m.id ==> p in combined)
  {
    WithoutSpec(ids, m.id);
    UniqueConcat(Without(ids, m.id), [m]);
  }

  lemma {:induction false} TrimmedSpec(combined: seq<Meta>, created: int)
    requires UniqueIds(combined)
    ensures var window := Tail(Split(combined, created, false)) + Split(combined, created, true);
            && UniqueIds(window) && (forall p :: p in window ==> p in combined)
            && (forall p :: p in combined && p.created == created ==> p in window)
  {
    SplitSpec(combined, created, false);
    SplitSpec(combined, created, true);
    var older, at := Split(combined, created, false), Split(combined, created, true);
    assert forall p :: p in Tail(older) ==> p in older;
    JoinParts(combined, Tail(older), at, created);
  }

  lemma {:induction false} AppendSpec(ids: seq<Meta>, m: Meta)
    requires UniqueIds(ids)
    ensures Appended(ids, m, Append(ids, m))
  {
    CombinedSpec(ids, m);
    TrimmedSpec(Without(ids, m.id) + [m], m.created);
  }

  /** The trimming spares up to 200 pairs of older dates, and all of the new one. */
  lemma {:induction false} AppendForgetsLittle(ids: seq<Meta>, m: Meta, p: Meta)
    requires p in ids && p.id != m.id && |ids| <= 200
    ensures p in Append(ids, m)
  {
    WithoutSpec(ids, m.id);
    WithoutShrinks(ids, m.id);
    var combined := Without(ids, m.id) + [m];
    SplitSpec(combined, m.created, false);
    SplitSpec(combined, m.created, true);
    SplitShrinks(Without(ids, m.id), m);
  }

  lemma {:induction false} WithoutShrinks(ids: seq<Meta>, id: string)
    ensures |Without(ids, id)| <= |ids|
  {
    if ids != [] {
      WithoutShrinks(ids[..|ids| - 1], id);
    }
  }

  lemma {:induction false} SplitShrinks(ids: seq<Meta>, m: Meta)
    ensures |Split(ids, m.created, false)| <= |ids| && Split(ids + [m], m.created, false) == Split(ids, m.created, false)
  {
    assert (ids + [m])[..|ids|] == ids;
    if ids != [] {
      SplitShrinks(ids[..|ids| - 1], m);
    }
  }

  /** The window after processing the files of a history, in order. */
  function Window(history: seq<Meta>): seq<Meta> {
    if history == [] then [] else Append(Window(history[..|history| - 1]), history[|history| - 1])
  }

  /** Files are processed in the order of their dates. */
  predicate InOrder(history: seq<Meta>) {
    forall i, j :: 0 <= i < j < |history| ==> history[i].created <= history[j].created
  }

  /** What a window keeps of a history whose newest date is `watermark`. */
  predicate Faithful(history: seq<Meta>, watermark: int, window: seq<Meta>) {
    && UniqueIds(window)
    && (forall p :: p in window ==> p in history)
    && (forall p :: p in history ==> p.created <= watermark)
    && (forall p :: p in history && p.created == watermark ==> p in window)
  }

  lemma {:induction false} FaithfulStep(history: seq<Meta>, watermark: int, window: seq<Meta>, m: Meta)
    requires Faithful(history, watermark, window) && watermark <= m.created
    ensures Faithful(history + [m], m.created, Append(window, m))
  {
    AppendSpec(window, m);
    forall p | p in history && p.created == m.created
      ensures p in Append(window, m)
    {
      assert p in window;
      assert p.id == m.id ==> p == m;
    }
  }

  lemma {:induction false} WindowSpec(history: seq<Meta>)
    requires InOrder(history) && history != []
    ensures Faithful(history, history[|history| - 1].created, Window(history))
  {
    var front, m := history[..|history| - 1], history[|history| - 1];
    assert history == front + [m];
    if front == [] {
      FaithfulStep([], m.created, [], m);
    } else {
      WindowSpec(front);
      FaithfulStep(front, front[|front| - 1].created, Window(front), m);
    }
  }

  lemma {:induction false} RecordedSpec(ids: seq<Meta>, id: string)
    requires UniqueIds(ids)
    ensures forall p :: p in ids && p.id == id ==> Recorded(ids, id) == Some(p.created)
    ensures Recorded(ids, id).Some? ==> Meta(id, Recorded(ids, id).value) in ids
  {
    if ids != [] {
      var front, last := ids[..|ids| - 1], ids[|ids| - 1];
      RecordedSpec(front, id);
      assert ids == front + [last];
      assert forall i :: 0 <= i < |front| ==> front[i].id != last.id;
    }
  }

  /**
   The trimmed window decides as the whole history would: a file listed at or after the watermark is skipped exactly
   when that id was processed at that date or a newer one. A regenerated daily file is processed again.
   */
  lemma {:induction false} WindowDecidesAsHistory(history: seq<Meta>, m: Meta)
    requires InOrder(history) && (history != [] ==> history[|history| - 1].created <= m.created)
    ensures AlreadyProcessed(m, Window(history)) <==> exists p :: p in history && p.id == m.id && p.created >= m.created
  {
    if history != [] {
      WindowSpec(history);
      RecordedSpec(Window(history), m.id);
      if p :| p in history && p.id == m.id && p.created >= m.created {
        assert p in Window(history);
      }
    }
  }

  /** Processing one more file keeps the window that of the history. */
  lemma {:induction false} WindowFollowsHistory(history: seq<Meta>, c: Checkpoint, m: Meta)
    requires c.ids == Window(history)
    ensures Past(c, m) == Checkpoint(m.created, Window(history + [m]))
  {
    assert (history + [m])[..|history|] == history;
  }

  // ----- one cycle -----

  /** How a download ends, after the rows it delivered. */
  datatype End = Complete | Throttled | Broken

  /** What a download delivers; a row is `true` when the transforms and the sampling keep it. */
  datatype File = File(meta: Meta, rows: seq<bool>, end: End)

  datatype Config = Config(now: int, settleWindow: int, maxAge: int)

  /** A row passed, with the checkpoint its entry carries if it was kept; a file given up by age; a checkpoint alone. */
  datatype Event = Row(file: nat, row: nat, token: Option<Checkpoint>) | Abandoned(file: nat) | Only(token: Option<Checkpoint>)

  function TokenOf(e: Event): Option<Checkpoint> {
    if e.Abandoned? then None else e.token
  }

  predicate Unsettled(cfg: Config, f: File) {
    cfg.settleWindow != 0 && cfg.now - f.meta.created < cfg.settleWindow
  }

  predicate TooOld(cfg: Config, f: File) {
    cfg.now - f.meta.created > cfg.maxAge
  }

  predicate NonEmpty(f: File) {
    f.rows != [] || !f.end.Complete?
  }

  /** What has been passed and what given up. */
  datatype Progress = Progress(rows: set<(nat, nat)>, abandoned: set<nat>)

  function ProgressOf(log: seq<Event>): Progress {
    if log == [] then Progress({}, {})
    else
      var p := ProgressOf(log[..|log| - 1]);
      match log[|log| - 1]
      case Row(file, row, _) => p.(rows := p.rows + {(file, row)})
      case Abandoned(file) => p.(abandoned := p.abandoned + {file})
      case Only(_) => p
  }

  predicate More(p: Progress, q: Progress) {
    p.rows <= q.rows && p.abandoned <= q.abandoned
  }

  predicate AllPassed(p: Progress, f: nat, n: nat) {
    forall j: nat :: j < n ==> (f, j) in p.rows
  }

  /** All rows of a complete download were yielded or filtered, or the file was given up, which only age allows. */
  predicate Done(cfg: Config, files: seq<File>, p: Progress, f: nat) {
    && f < |files|
    && ((files[f].end.Complete? && AllPassed(p, f, |files[f].rows|)) || (f in p.abandoned && TooOld(cfg, files[f])))
  }

  /** A checkpoint marks as processed only files done, and leaves behind its watermark no file that is not. */
  predicate Safe(cfg: Config, files: seq<File>, start: Checkpoint, p: Progress, c: Checkpoint) {
    && (forall m :: m in c.ids ==> m in start.ids || Marked(cfg, files, p, m))
    && (forall f: nat :: f < |files| && NonEmpty(files[f]) && files[f].meta.created < c.last ==> Done(cfg, files, p, f))
    && (c.last == start.last || exists f: nat :: f < |files| && c.last == files[f].meta.created)
  }

  predicate Marked(cfg: Config, files: seq<File>, p: Progress, m: Meta) {
    exists f: nat :: f < |files| && files[f].meta == m && NonEmpty(files[f]) && Done(cfg, files, p, f)
  }

  /** At every event the checkpoint it carries is safe given what went before it and the event itself. */
  predicate Sound(cfg: Config, files: seq<File>, start: Checkpoint, log: seq<Event>) {
    log == [] || (Sound(cfg, files, start, log[..|log| - 1])
                  && (TokenOf(log[|log| - 1]).Some? ==> Safe(cfg, files, start, ProgressOf(log), TokenOf(log[|log| - 1]).value)))
  }

  /** For every prefix of a sound run, the last checkpoint it carried is safe. */
  lemma {:induction false} EveryPrefixIsSafe(cfg: Config, files: seq<File>, start: Checkpoint, log: seq<Event>, n: nat)
    requires Sound(cfg, files, start, log) && n < |log| && TokenOf(log[n]).Some?
    ensures Safe(cfg, files, start, ProgressOf(log[..n + 1]), TokenOf(log[n]).value)
  {
    if n < |log| - 1 {
      EveryPrefixIsSafe(cfg, files, start, log[..|log| - 1], n);
      assert log[..|log| - 1][..n + 1] == log[..n + 1];
    } else {
      assert log[..n + 1] == log;
    }
  }

  lemma {:induction false} AppendEvent(cfg: Config, files: seq<File>, start: Checkpoint, log: seq<Event>, e: Event)
    requires Sound(cfg, files, start, log)
    requires TokenOf(e).Some? ==> Safe(cfg, files, start, ProgressOf(log + [e]), TokenOf(e).value)
    ensures Sound(cfg, files, start, log + [e])
    ensures More(ProgressOf(log), ProgressOf(log + [e]))
    ensures e.Row? ==> (e.file, e.row) in ProgressOf(log + [e]).rows
    ensures e.Abandoned? ==> e.file in ProgressOf(log + [e]).abandoned
  {
    assert (log + [e])[..|log|] == log;
  }

  lemma {:induction false} DoneStays(cfg: Config, files: seq<File>, p: Progress, q: Progress, f: nat)
    requires Done(cfg, files, p, f) && More(p, q)
    ensures Done(cfg, files, q, f)
  {
  }

  lemma {:induction false} MarkedStays(cfg: Config, files: seq<File>, p: Progress, q: Progress, m: Meta)
    requires Marked(cfg, files, p, m) && More(p, q)
    ensures Marked(cfg, files, q, m)
  {
    var f: nat :| f < |files| && files[f].meta == m && NonEmpty(files[f]) && Done(cfg, files, p, f);
    DoneStays(cfg, files, p, q, f);
  }

  predicate Listed(files: seq<File>, start: Checkpoint) {
    && (forall i, j :: 0 <= i < j < |files| ==> files[i].meta.created <= files[j].meta.created)
    && (forall i :: 0 <= i < |files| ==> files[i].meta.created >= start.last)
  }

  /** Between files: every settled file so far is done, and the checkpoint in effect is at the start or at a settled file. */
  predicate Ready(cfg: Config, files: seq<File>, start: Checkpoint, p: Progress, c: Checkpoint, i: nat) {
    && i <= |files|
    && UniqueIds(c.ids)
    && (forall m :: m in c.ids ==> m in start.ids || Marked(cfg, files, p, m))
    && (forall f: nat :: f < i && NonEmpty(files[f]) && !Unsettled(cfg, files[f]) ==> Done(cfg, files, p, f))
    && (c.last == start.last || exists f: nat :: f < i && c.last == files[f].meta.created && !Unsettled(cfg, files[f]))
  }

  /** The checkpoint in effect between files is safe: files are listed in order, so an unsettled file is never passed by. */
  lemma {:induction false} ReadyIsSafe(cfg: Config, files: seq<File>, start: Checkpoint, p: Progress, c: Checkpoint, i: nat)
    requires Listed(files, start) && Ready(cfg, files, start, p, c, i)
    ensures Safe(cfg, files, start, p, c)
  {
  }

  lemma {:induction false} ReadyStays(cfg: Config, files: seq<File>, start: Checkpoint, p: Progress, q: Progress, c: Checkpoint, i: nat)
    requires Ready(cfg, files, start, p, c, i) && More(p, q)
    ensures Ready(cfg, files, start, q, c, i)
  {
    forall m | m in c.ids && m !in start.ids
      ensures Marked(cfg, files, q, m)
    {
      MarkedStays(cfg, files, p, q, m);
    }
    forall f: nat | f < i && NonEmpty(files[f]) && !Unsettled(cfg, files[f])
      ensures Done(cfg, files, q, f)
    {
      DoneStays(cfg, files, p, q, f);
    }
  }

  function Past(c: Checkpoint, m: Meta): Checkpoint {
    Checkpoint(m.created, Append(c.ids, m))
  }

  /** Moving past a file that is done. */
  lemma {:induction false} MoveOn(cfg: Config, files: seq<File>, start: Checkpoint, p: Progress, c: Checkpoint, i: nat)
    requires Ready(cfg, files, start, p, c, i) && i < |files| && !Unsettled(cfg, files[i]) && NonEmpty(files[i]) && Done(cfg, files, p, i)
    ensures Ready(cfg, files, start, p, Past(c, files[i].meta), i + 1)
  {
    AppendSpec(c.ids, files[i].meta);
    assert Marked(cfg, files, p, files[i].meta);
  }

  /** Skipping a file that is unsettled or empty. */
  lemma {:induction false} SkipOver(cfg: Config, files: seq<File>, start: Checkpoint, p: Progress, c: Checkpoint, i: nat)
    requires Ready(cfg, files, start, p, c, i) && i < |files| && (Unsettled(cfg, files[i]) || !NonEmpty(files[i]))
    ensures Ready(cfg, files, start, p, c, i + 1)
  {
  }

  /** The checkpoint last carried by a yielded entry. */
  function LastCarried(log: seq<Event>): Option<Checkpoint> {
    if log == [] then None
    else if TokenOf(log[|log| - 1]).Some? then TokenOf(log[|log| - 1])
    else LastCarried(log[..|log| - 1])
  }

  /** The cycle so far, between two files. */
  predicate Between(cfg: Config, files: seq<File>, start: Checkpoint, log: seq<Event>, c: Checkpoint, i: nat) {
    Sound(cfg, files, start, log) && Ready(cfg, files, start, ProgressOf(log), c, i)
  }

  /** The cycle so far, with the first `j` rows of file `i` passed. */
  predicate Within(cfg: Config, files: seq<File>, start: Checkpoint, log: seq<Event>, c: Checkpoint, i: nat, j: nat) {
    Between(cfg, files, start, log, c, i) && AllPassed(ProgressOf(log), i, j)
  }

  lemma {:induction false} PassRow(cfg: Config, files: seq<File>, start: Checkpoint, log: seq<Event>, c: Checkpoint, i: nat, j: nat, kept: bool)
    requires Listed(files, start) && Within(cfg, files, start, log, c, i, j)
    ensures Within(cfg, files, start, log + [Row(i, j, if kept then Some(c) else None)], c, i, j + 1)
  {
    var e := Row(i, j, if kept then Some(c) else None);
    assert ProgressOf(log + [e]) == ProgressOf(log).(rows := ProgressOf(log).rows + {(i, j)}) by {
      assert (log + [e])[..|log|] == log;
    }
    ReadyStays(cfg, files, start, ProgressOf(log), ProgressOf(log + [e]), c, i);
    ReadyIsSafe(cfg, files, start, ProgressOf(log + [e]), c, i);
    AppendEvent(cfg, files, start, log, e);
  }

  /** The last row of a complete download carries the checkpoint past its file. */
  lemma {:induction false} PassLastRow(cfg: Config, files: seq<File>, start: Checkpoint, log: seq<Event>, c: Checkpoint, i: nat, kept: bool)
    requires Listed(files, start) && i < |files| && |files[i].rows| > 0 && files[i].end.Complete? && !Unsettled(cfg, files[i])
    requires Within(cfg, files, start, log, c, i, |files[i].rows| - 1)
    ensures var next := Past(c, files[i].meta);
            Between(cfg, files, start, log + [Row(i, |files[i].rows| - 1, if kept then Some(next) else None)], next, i + 1)
  {
    var next := Past(c, files[i].meta);
    var e := Row(i, |files[i].rows| - 1, if kept then Some(next) else None);
    assert ProgressOf(log + [e]) == ProgressOf(log).(rows := ProgressOf(log).rows + {(i, |files[i].rows| - 1)}) by {
      assert (log + [e])[..|log|] == log;
    }
    ReadyStays(cfg, files, start, ProgressOf(log), ProgressOf(log + [e]), c, i);
    assert Done(cfg, files, ProgressOf(log + [e]), i);
    MoveOn(cfg, files, start, ProgressOf(log + [e]), c, i);
    ReadyIsSafe(cfg, files, start, ProgressOf(log + [e]), next, i + 1);
    AppendEvent(cfg, files, start, log, e);
  }

  /** A file past the maximum age whose download failed is given up. */
  lemma {:induction false} GiveUp(cfg: Config, files: seq<File>, start: Checkpoint, log: seq<Event>, c: Checkpoint, i: nat)
    requires i < |files| && !Unsettled(cfg, files[i]) && NonEmpty(files[i]) && TooOld(cfg, files[i])
    requires Between(cfg, files, start, log, c, i)
    ensures Between(cfg, files, start, log + [Abandoned(i)], Past(c, files[i].meta), i + 1)
  {
    var e := Abandoned(i);
    AppendEvent(cfg, files, start, log, e);
    ReadyStays(cfg, files, start, ProgressOf(log), ProgressOf(log + [e]), c, i);
    MoveOn(cfg, files, start, ProgressOf(log + [e]), c, i);
  }

  lemma {:induction false} LastCarriedAppend(log: seq<Event>, e: Event)
    ensures LastCarried(log + [e]) == if TokenOf(e).Some? then TokenOf(e) else LastCarried(log)
  {
    assert (log + [e])[..|log|] == log;
  }

  /** Every settled non-empty file before the i-th is done. */
  predicate DoneUpTo(cfg: Config, files: seq<File>, p: Progress, i: nat) {
    i <= |files| && forall f: nat :: f < i && NonEmpty(files[f]) && !Unsettled(cfg, files[f]) ==> Done(cfg, files, p, f)
  }

  /** The download ends the cycle: it is throttled, or broken and not old enough to be given up. */
  predicate Fails(cfg: Config, f: File) {
    f.end.Throttled? || (f.end.Broken? && cfg.now - f.meta.created <= cfg.maxAge)
  }

  /** No file among the first `i` that the cycle takes fails. */
  predicate NoneFails(cfg: Config, files: seq<File>, i: nat) {
    i <= |files| && forall f: nat :: f < i && Takes(cfg, files[f]) ==> !Fails(cfg, files[f])
  }

  // ----- what a cycle yields, exactly -----

  /** A cycle works on settled files that are not empty. */
  predicate Takes(cfg: Config, f: File) {
    !Unsettled(cfg, f) && NonEmpty(f)
  }

  /** The start with the first `i` files folded in, in listing order. */
  function Reached(cfg: Config, files: seq<File>, start: Checkpoint, i: nat): Checkpoint
    requires i <= |files|
  {
    if i == 0 then start
    else
      var c := Reached(cfg, files, start, i - 1);
      if Takes(cfg, files[i - 1]) then Past(c, files[i - 1].meta) else c
  }

  /** The rows yielded of a file: of a broken download, the last row delivered is held back by the lookahead. */
  function Yields(f: File): nat {
    if f.end.Complete? || f.rows == [] then |f.rows| else |f.rows| - 1
  }

  /** A row; its entry, if kept, carries the checkpoint past its file only if it is the last of a complete download. */
  function RowEvent(cfg: Config, files: seq<File>, start: Checkpoint, i: nat, j: nat): Event
    requires i < |files| && j < |files[i].rows|
  {
    var last := files[i].end.Complete? && j == |files[i].rows| - 1;
    Row(i, j, if files[i].rows[j] then Some(if last then Past(Reached(cfg, files, start, i), files[i].meta) else Reached(cfg, files, start, i))
              else None)
  }

  function RowEvents(cfg: Config, files: seq<File>, start: Checkpoint, i: nat, n: nat): seq<Event>
    requires i < |files| && n <= |files[i].rows|
  {
    if n == 0 then [] else RowEvents(cfg, files, start, i, n - 1) + [RowEvent(cfg, files, start, i, n - 1)]
  }

  function FileEvents(cfg: Config, files: seq<File>, start: Checkpoint, i: nat): seq<Event>
    requires i < |files|
  {
    if !Takes(cfg, files[i]) then []
    else RowEvents(cfg, files, start, i, Yields(files[i])) + (if files[i].end.Complete? then [] else [Abandoned(i)])
  }

  /** What the first `i` files give, in order. */
  function Events(cfg: Config, files: seq<File>, start: Checkpoint, i: nat): seq<Event>
    requires i <= |files|
  {
    if i == 0 then [] else Events(cfg, files, start, i - 1) + FileEvents(cfg, files, start, i - 1)
  }

  /** Between two files: the checkpoint is the one reached, and the log is what the files before gave. */
  predicate Exactly(cfg: Config, files: seq<File>, start: Checkpoint, log: seq<Event>, c: Checkpoint, i: nat) {
    i <= |files| && c == Reached(cfg, files, start, i) && log == Events(cfg, files, start, i)
  }

  /** The same with the first `n` rows of file `i` passed. */
  predicate ExactlyIn(cfg: Config, files: seq<File>, start: Checkpoint, log: seq<Event>, c: Checkpoint, i: nat, n: nat) {
    && i < |files| && n <= |files[i].rows| && c == Reached(cfg, files, start, i)
    && log == Events(cfg, files, start, i) + RowEvents(cfg, files, start, i, n)
  }

  /** The cycle stopped within file `i`. */
  ghost predicate StoppedIn(cfg: Config, files: seq<File>, start: Checkpoint, log: seq<Event>, i: nat) {
    i < |files| && exists n: nat, c :: n <= Yields(files[i]) && ExactlyIn(cfg, files, start, log, c, i, n)
  }

  lemma {:induction false} ExactStart(cfg: Config, files: seq<File>, start: Checkpoint, log: seq<Event>, c: Checkpoint, i: nat)
    requires Exactly(cfg, files, start, log, c, i) && i < |files|
    ensures ExactlyIn(cfg, files, start, log, c, i, 0) && StoppedIn(cfg, files, start, log, i)
  {
    assert log + [] == log;
    assert ExactlyIn(cfg, files, start, log, c, i, 0);
  }

  lemma {:induction false} ExactRow(cfg: Config, files: seq<File>, start: Checkpoint, log: seq<Event>, c: Checkpoint, i: nat, j: nat)
    requires ExactlyIn(cfg, files, start, log, c, i, j) && j + 1 < |files[i].rows|
    ensures ExactlyIn(cfg, files, start, log + [Row(i, j, if files[i].rows[j] then Some(c) else None)], c, i, j + 1)
  {
    assert RowEvent(cfg, files, start, i, j) == Row(i, j, if files[i].rows[j] then Some(c) else None);
  }

  /** A complete download gives all its rows. */
  lemma {:induction false} CompleteFile(cfg: Config, files: seq<File>, start: Checkpoint, i: nat, j: nat)
    requires i < |files| && files[i].end.Complete? && !Unsettled(cfg, files[i]) && |files[i].rows| == j + 1
    ensures FileEvents(cfg, files, start, i) == RowEvents(cfg, files, start, i, j) + [RowEvent(cfg, files, start, i, j)]
  {
  }

  lemma {:induction false} ExactLast(cfg: Config, files: seq<File>, start: Checkpoint, log: seq<Event>, c: Checkpoint, i: nat)
    requires i < |files| && files[i].rows != [] && ExactlyIn(cfg, files, start, log, c, i, |files[i].rows| - 1)
    requires files[i].end.Complete? && !Unsettled(cfg, files[i])
    ensures var next, j := Past(c, files[i].meta), |files[i].rows| - 1;
            Exactly(cfg, files, start, log + [Row(i, j, if files[i].rows[j] then Some(next) else None)], next, i + 1)
  {
    var next, j := Past(c, files[i].meta), |files[i].rows| - 1;
    var e := RowEvent(cfg, files, start, i, j);
    assert e == Row(i, j, if files[i].rows[j] then Some(next) else None);
    CompleteFile(cfg, files, start, i, j);
    JoinEvents(Events(cfg, files, start, i), RowEvents(cfg, files, start, i, j), e);
  }

  lemma {:induction false} JoinEvents(a: seq<Event>, b: seq<Event>, e: Event)
    ensures a + b + [e] == a + (b + [e])
  {
  }

  lemma {:induction false} ExactGiveUp(cfg: Config, files: seq<File>, start: Checkpoint, log: seq<Event>, c: Checkpoint, i: nat)
    requires i < |files| && !files[i].end.Complete? && !Unsettled(cfg, files[i])
    requires ExactlyIn(cfg, files, start, log, c, i, Yields(files[i]))
    ensures Exactly(cfg, files, start, log + [Abandoned(i)], Past(c, files[i].meta), i + 1)
  {
    var rows := RowEvents(cfg, files, start, i, Yields(files[i]));
    assert FileEvents(cfg, files, start, i) == rows + [Abandoned(i)];
    JoinEvents(Events(cfg, files, start, i), rows, Abandoned(i));
  }

  lemma {:induction false} ExactSkip(cfg: Config, files: seq<File>, start: Checkpoint, log: seq<Event>, c: Checkpoint, i: nat)
    requires Exactly(cfg, files, start, log, c, i) && i < |files| && !Takes(cfg, files[i])
    ensures Exactly(cfg, files, start, log, c, i + 1)
  {
    assert log + [] == log;
  }

  /** What a completed cycle yields, read off the files: a file is due once it has settled ... */
  predicate Settled(cfg: Config, f: File) {
    cfg.settleWindow == 0 || cfg.now >= f.meta.created + cfg.settleWindow
  }

  /** ... and then its rows are, as far as the lookahead lets them, or it is given up if the download did not complete. */
  predicate Due(cfg: Config, files: seq<File>, e: Event) {
    && !e.Only? && e.file < |files| && Settled(cfg, files[e.file])
    && (e.Row? ==> e.row < Yields(files[e.file]) && (e.token.Some? <==> files[e.file].rows[e.row]))
    && (e.Abandoned? ==> !files[e.file].end.Complete?)
  }

  lemma {:induction false} RowsAreDue(cfg: Config, files: seq<File>, start: Checkpoint, i: nat, n: nat, k: nat)
    requires i < |files| && n <= Yields(files[i]) && Settled(cfg, files[i]) && k < |RowEvents(cfg, files, start, i, n)|
    ensures k < n && RowEvents(cfg, files, start, i, n)[k] == RowEvent(cfg, files, start, i, k)
    ensures Due(cfg, files, RowEvents(cfg, files, start, i, n)[k])
  {
    if k < |RowEvents(cfg, files, start, i, n - 1)| {
      RowsAreDue(cfg, files, start, i, n - 1, k);
    } else {
      RowCount(cfg, files, start, i, n - 1);
    }
  }

  lemma {:induction false} RowCount(cfg: Config, files: seq<File>, start: Checkpoint, i: nat, n: nat)
    requires i < |files| && n <= |files[i].rows|
    ensures |RowEvents(cfg, files, start, i, n)| == n
  {
    if n > 0 {
      RowCount(cfg, files, start, i, n - 1);
    }
  }

  lemma {:induction false} FileIsDue(cfg: Config, files: seq<File>, start: Checkpoint, i: nat, k: nat)
    requires i < |files| && k < |FileEvents(cfg, files, start, i)|
    ensures Due(cfg, files, FileEvents(cfg, files, start, i)[k])
  {
    var rows := RowEvents(cfg, files, start, i, Yields(files[i]));
    if k < |rows| {
      RowsAreDue(cfg, files, start, i, Yields(files[i]), k);
    }
  }

  /** A cycle yields nothing but what is due of its files ... */
  lemma {:induction false} YieldsOnlyWhatIsDue(cfg: Config, files: seq<File>, start: Checkpoint, n: nat, k: nat)
    requires n <= |files| && k < |Events(cfg, files, start, n)|
    ensures Due(cfg, files, Events(cfg, files, start, n)[k])
  {
    var before := Events(cfg, files, start, n - 1);
    if k < |before| {
      YieldsOnlyWhatIsDue(cfg, files, start, n - 1, k);
    } else {
      FileIsDue(cfg, files, start, n - 1, k - |before|);
    }
  }

  /** Where in the log the events of file `i` begin. */
  function Offset(cfg: Config, files: seq<File>, start: Checkpoint, i: nat): nat
    requires i <= |files|
  {
    |Events(cfg, files, start, i)|
  }

  /** ... and all of it: row `j` of settled file `i` comes `j` events after the files before, in every longer log. */
  lemma {:induction false} YieldsAllThatIsDue(cfg: Config, files: seq<File>, start: Checkpoint, n: nat, i: nat, j: nat)
    requires i < n <= |files| && Settled(cfg, files[i]) && j < Yields(files[i])
    ensures var at, log := Offset(cfg, files, start, i) + j, Events(cfg, files, start, n);
            at < |log| && log[at].Row? && log[at].file == i && log[at].row == j
    decreases n
  {
    var before, more := Events(cfg, files, start, n - 1), FileEvents(cfg, files, start, n - 1);
    if i < n - 1 {
      YieldsAllThatIsDue(cfg, files, start, n - 1, i, j);
    } else {
      RowCount(cfg, files, start, i, Yields(files[i]));
      RowsAreDue(cfg, files, start, i, Yields(files[i]), j);
      assert more[j] == RowEvents(cfg, files, start, i, Yields(files[i]))[j];
      assert (before + more)[|before| + j] == more[j];
    }
  }

  /** The cycle stands in a file with `j` rows passed, everything before accounted for. */
  predicate StandingIn(cfg: Config, files: seq<File>, start: Checkpoint, log: seq<Event>, c: Checkpoint, i: nat, j: nat) {
    Within(cfg, files, start, log, c, i, j) && ExactlyIn(cfg, files, start, log, c, i, j)
  }

  /** The cycle stands between two files, with everything before accounted for. */
  predicate Standing(cfg: Config, files: seq<File>, start: Checkpoint, log: seq<Event>, c: Checkpoint, i: nat) {
    Between(cfg, files, start, log, c, i) && Exactly(cfg, files, start, log, c, i)
  }

  lemma {:induction false} NextRow(cfg: Config, files: seq<File>, start: Checkpoint, log: seq<Event>, c: Checkpoint, i: nat, j: nat)
    requires Listed(files, start) && StandingIn(cfg, files, start, log, c, i, j) && j + 1 < |files[i].rows|
    ensures var e := Row(i, j, if files[i].rows[j] then Some(c) else None);
            && StandingIn(cfg, files, start, log + [e], c, i, j + 1)
            && LastCarried(log + [e]) == if files[i].rows[j] then Some(c) else LastCarried(log)
  {
    PassRow(cfg, files, start, log, c, i, j, files[i].rows[j]);
    ExactRow(cfg, files, start, log, c, i, j);
    LastCarriedAppend(log, Row(i, j, if files[i].rows[j] then Some(c) else None));
  }

  /** The cycle may stop here: what it carried is safe, and every settled file before this one is done. */
  ghost predicate StopsSoundly(cfg: Config, files: seq<File>, start: Checkpoint, log: seq<Event>, i: nat) {
    StoppedIn(cfg, files, start, log, i) && Sound(cfg, files, start, log) && DoneUpTo(cfg, files, ProgressOf(log), i)
  }

  lemma {:induction false} StopsHere(cfg: Config, files: seq<File>, start: Checkpoint, log: seq<Event>, c: Checkpoint, i: nat, j: nat)
    requires StandingIn(cfg, files, start, log, c, i, j) && j < |files[i].rows|
    ensures StopsSoundly(cfg, files, start, log, i)
  {
  }

  lemma {:induction false} LastRow(cfg: Config, files: seq<File>, start: Checkpoint, log: seq<Event>, c: Checkpoint, i: nat)
    requires Listed(files, start) && i < |files| && files[i].rows != [] && files[i].end.Complete? && !Unsettled(cfg, files[i])
    requires StandingIn(cfg, files, start, log, c, i, |files[i].rows| - 1)
    ensures var j, next := |files[i].rows| - 1, Past(c, files[i].meta);
            var e := Row(i, j, if files[i].rows[j] then Some(next) else None);
            && Standing(cfg, files, start, log + [e], next, i + 1)
            && LastCarried(log + [e]) == if files[i].rows[j] then Some(next) else LastCarried(log)
  {
    var j, next := |files[i].rows| - 1, Past(c, files[i].meta);
    PassLastRow(cfg, files, start, log, c, i, files[i].rows[j]);
    ExactLast(cfg, files, start, log, c, i);
    LastCarriedAppend(log, Row(i, j, if files[i].rows[j] then Some(next) else None));
  }

  lemma {:induction false} GiveFileUp(cfg: Config, files: seq<File>, start: Checkpoint, log: seq<Event>, c: Checkpoint, i: nat)
    requires i < |files| && files[i].end.Broken? && !Unsettled(cfg, files[i]) && TooOld(cfg, files[i])
    requires StandingIn(cfg, files, start, log, c, i, Yields(files[i]))
    ensures Standing(cfg, files, start, log + [Abandoned(i)], Past(c, files[i].meta), i + 1)
    ensures LastCarried(log + [Abandoned(i)]) == LastCarried(log)
  {
    GiveUp(cfg, files, start, log, c, i);
    ExactGiveUp(cfg, files, start, log, c, i);
    LastCarriedAppend(log, Abandoned(i));
  }

  /** The lookahead found no further row: emit the last one, give up, or stop the cycle. */
  method EndFile(cfg: Config, ghost files: seq<File>, ghost start: Checkpoint, c: Checkpoint, i: nat, f: File,
                 log: seq<Event>, lastYielded: Option<Checkpoint>)
    returns (log': seq<Event>, lastYielded': Option<Checkpoint>, advanced: bool)
    requires Listed(files, start) && i < |files| && files[i] == f && f.rows != [] && !Unsettled(cfg, f)
    requires StandingIn(cfg, files, start, log, c, i, |f.rows| - 1) && lastYielded == LastCarried(log)
    ensures (advanced <==> !Fails(cfg, f)) && lastYielded' == LastCarried(log')
    ensures if advanced then Standing(cfg, files, start, log', Past(c, f.meta), i + 1) else log' == log
  {
    log', lastYielded', advanced := log, lastYielded, false;
    match f.end
    case Throttled =>
    case Broken =>
      if TooOld(cfg, f) {
        GiveFileUp(cfg, files, start, log, c, i);
        log', advanced := log + [Abandoned(i)], true;
      }
    case Complete =>
      var next := Past(c, f.meta);
      LastRow(cfg, files, start, log, c, i);
      if f.rows[|f.rows| - 1] {
        log', lastYielded', advanced := log + [Row(i, |f.rows| - 1, Some(next))], Some(next), true;
      } else {
        log', advanced := log + [Row(i, |f.rows| - 1, None)], true;
      }
  }

  lemma {:induction false} EntersFile(cfg: Config, files: seq<File>, start: Checkpoint, log: seq<Event>, c: Checkpoint, i: nat)
    requires Standing(cfg, files, start, log, c, i) && i < |files|
    ensures StandingIn(cfg, files, start, log, c, i, 0) && StopsSoundly(cfg, files, start, log, i)
  {
    ExactStart(cfg, files, start, log, c, i);
  }

  /** The rows of a file up to the one held back by the lookahead, or up to a stop. */
  method EmitRows(cfg: Config, ghost files: seq<File>, ghost start: Checkpoint, c: Checkpoint, i: nat, f: File,
                  log: seq<Event>, lastYielded: Option<Checkpoint>, stop: nat -> bool)
    returns (log': seq<Event>, lastYielded': Option<Checkpoint>, j: nat)
    requires Listed(files, start) && StandingIn(cfg, files, start, log, c, i, 0) && lastYielded == LastCarried(log)
    requires files[i] == f && f.rows != []
    ensures StandingIn(cfg, files, start, log', c, i, j) && lastYielded' == LastCarried(log')
    ensures j < |f.rows| && (j < |f.rows| - 1 ==> stop(j))
  {
    log', lastYielded', j := log, lastYielded, 0;
    while j + 1 < |f.rows| && !stop(j)
      invariant j < |f.rows|
      invariant StandingIn(cfg, files, start, log', c, i, j) && lastYielded' == LastCarried(log')
    {
      NextRow(cfg, files, start, log', c, i, j);
      log' := log' + [Row(i, j, if f.rows[j] then Some(c) else None)];
      if f.rows[j] {
        lastYielded' := Some(c);
      }
      j := j + 1;
    }
  }

  /** The rows of one file, with one row of lookahead; `advanced` when the cycle may go on past the file. */
  method EmitFile(cfg: Config, ghost files: seq<File>, ghost start: Checkpoint, c: Checkpoint, i: nat, f: File,
                  log: seq<Event>, lastYielded: Option<Checkpoint>, stop: nat -> bool)
    returns (log': seq<Event>, lastYielded': Option<Checkpoint>, advanced: bool)
    requires Listed(files, start) && Standing(cfg, files, start, log, c, i)
    requires i < |files| && files[i] == f && f.rows != [] && !Unsettled(cfg, f) && lastYielded == LastCarried(log)
    ensures lastYielded' == LastCarried(log')
    ensures if advanced then !Fails(cfg, f) && Standing(cfg, files, start, log', Past(c, f.meta), i + 1)
            else StopsSoundly(cfg, files, start, log', i) && (Fails(cfg, f) || exists j: nat :: stop(j))
  {
    EntersFile(cfg, files, start, log, c, i);
    var j;
    log', lastYielded', j := EmitRows(cfg, files, start, c, i, f, log, lastYielded, stop);
    StopsHere(cfg, files, start, log', c, i, j);
    advanced := false;
    if !stop(j) {
      log', lastYielded', advanced := EndFile(cfg, files, start, c, i, f, log', lastYielded');
    }
  }

  lemma {:induction false} StartIsReady(cfg: Config, files: seq<File>, start: Checkpoint)
    requires UniqueIds(start.ids)
    ensures Between(cfg, files, start, [], start, 0)
  {
  }

  /** A checkpoint of its own for what no entry carried. */
  lemma {:induction false} CarryOnly(cfg: Config, files: seq<File>, start: Checkpoint, log: seq<Event>, c: Checkpoint, i: nat)
    requires Listed(files, start) && Between(cfg, files, start, log, c, i)
    ensures Sound(cfg, files, start, log + [Only(Some(c))]) && LastCarried(log + [Only(Some(c))]) == Some(c)
    ensures ProgressOf(log + [Only(Some(c))]) == ProgressOf(log)
  {
    var e := Only(Some(c));
    assert ProgressOf(log + [e]) == ProgressOf(log) by {
      assert (log + [e])[..|log|] == log;
    }
    ReadyIsSafe(cfg, files, start, ProgressOf(log), c, i);
    AppendEvent(cfg, files, start, log, e);
    LastCarriedAppend(log, e);
  }

  /** The files of the listing not processed before. */
  function Unprocessed(listing: seq<File>, ids: seq<Meta>): seq<File> {
    if listing == [] then []
    else
      var last := listing[|listing| - 1];
      Unprocessed(listing[..|listing| - 1], ids) + (if AlreadyProcessed(last.meta, ids) then [] else [last])
  }

  lemma {:induction false} UnprocessedSpec(listing: seq<File>, start: Checkpoint)
    requires Listed(listing, start)
    ensures Listed(Unprocessed(listing, start.ids), start)
    ensures forall f :: f in Unprocessed(listing, start.ids) <==> f in listing && !AlreadyProcessed(f.meta, start.ids)
  {
    if listing != [] {
      var front, last := listing[..|listing| - 1], listing[|listing| - 1];
      UnprocessedSpec(front, start);
      assert listing == front + [last];
      var rest := Unprocessed(front, start.ids);
      forall i | 0 <= i < |rest|
        ensures rest[i].meta.created <= last.meta.created
      {
        assert rest[i] in front;
      }
    }
  }

  /** One listed file: skipped, given up, emitted, or the end of the cycle. */
  method ProcessFile(cfg: Config, ghost files: seq<File>, ghost start: Checkpoint, c: Checkpoint, i: nat, f: File,
                     log: seq<Event>, lastYielded: Option<Checkpoint>, stop: nat -> bool)
    returns (log': seq<Event>, lastYielded': Option<Checkpoint>, c': Checkpoint, advanced: bool)
    requires Listed(files, start) && i < |files| && files[i] == f
    requires Standing(cfg, files, start, log, c, i) && lastYielded == LastCarried(log)
    ensures lastYielded' == LastCarried(log')
    ensures if advanced then (Takes(cfg, f) ==> !Fails(cfg, f)) && Standing(cfg, files, start, log', c', i + 1)
            else StopsSoundly(cfg, files, start, log', i) && ((exists j: nat :: stop(j)) || (!Unsettled(cfg, f) && Fails(cfg, f)))
  {
    log', lastYielded', c', advanced := log, lastYielded, c, true;
    EntersFile(cfg, files, start, log, c, i);
    if Unsettled(cfg, f) || (f.rows == [] && f.end.Complete?) {
      SkipOver(cfg, files, start, ProgressOf(log), c, i);
      ExactSkip(cfg, files, start, log, c, i);
    } else if f.rows == [] {
      if f.end.Throttled? || !TooOld(cfg, f) {
        advanced := false;
        return;
      }
      GiveUp(cfg, files, start, log, c, i);
      ExactGiveUp(cfg, files, start, log, c, i);
      LastCarriedAppend(log, Abandoned(i));
      log', c' := log + [Abandoned(i)], Past(c, f.meta);
    } else {
      log', lastYielded', advanced := EmitFile(cfg, files, start, c, i, f, log, lastYielded, stop);
      if advanced {
        c' := Past(c, f.meta);
      }
    }
  }

  /** A cut cycle: it yielded what the files before `at` give and some rows of that one, and it was cut for a reason. */
  ghost predicate CutAt(cfg: Config, files: seq<File>, start: Checkpoint, log: seq<Event>, at: nat, stop: nat -> bool, stopRow: (nat, nat) -> bool) {
    && StoppedIn(cfg, files, start, log, at) && DoneUpTo(cfg, files, ProgressOf(log), at)
    && (stop(at) || (exists j: nat :: stopRow(at, j)) || (!Unsettled(cfg, files[at]) && Fails(cfg, files[at])))
  }

  /** A completed cycle: it yielded what all files give, folded them all in, and carries the checkpoint reached. */
  ghost predicate Completes(cfg: Config, files: seq<File>, start: Checkpoint, log: seq<Event>, c: Checkpoint) {
    var events := Events(cfg, files, start, |files|);
    && c == Reached(cfg, files, start, |files|)
    && log == events + (if c == start || LastCarried(events) == Some(c) then [] else [Only(Some(c))])
    && (c == start || LastCarried(log) == Some(c))
    && Ready(cfg, files, start, ProgressOf(log), c, |files|)
    && NoneFails(cfg, files, |files|)
  }

  lemma {:induction false} AllProcessed(cfg: Config, files: seq<File>, start: Checkpoint, log: seq<Event>, c: Checkpoint)
    requires Listed(files, start) && Standing(cfg, files, start, log, c, |files|) && NoneFails(cfg, files, |files|)
    ensures var all := if c != start && LastCarried(log) != Some(c) then log + [Only(Some(c))] else log;
            Completes(cfg, files, start, all, c) && Sound(cfg, files, start, all)
  {
    if c != start && LastCarried(log) != Some(c) {
      CarryOnly(cfg, files, start, log, c, |files|);
    } else {
      assert log + [] == log;
    }
  }

  /** The files not processed before, one after the other. */
  method ProcessFiles(cfg: Config, files: seq<File>, start: Checkpoint, stop: nat -> bool, stopRow: (nat, nat) -> bool)
    returns (log: seq<Event>, c: Checkpoint, completed: bool, at: nat)
    requires Listed(files, start) && UniqueIds(start.ids)
    ensures Sound(cfg, files, start, log)
    ensures if completed then Completes(cfg, files, start, log, c) else CutAt(cfg, files, start, log, at, stop, stopRow)
  {
    StartIsReady(cfg, files, start);
    var lastYielded: Option<Checkpoint> := None;
    log, c, completed, at := [], start, false, 0;
    while at < |files|
      invariant at <= |files| && !completed && lastYielded == LastCarried(log)
      invariant Standing(cfg, files, start, log, c, at) && NoneFails(cfg, files, at)
    {
      if stop(at) {
        ExactStart(cfg, files, start, log, c, at);
        return;
      }
      var advanced;
      log, lastYielded, c, advanced := ProcessFile(cfg, files, start, c, at, files[at], log, lastYielded, (j: nat) => stopRow(at, j));
      if !advanced {
        return;
      }
      at := at + 1;
    }
    AllProcessed(cfg, files, start, log, c);
    completed := true;
    if c != start && lastYielded != Some(c) {
      log := log + [Only(Some(c))];
    }
  }

  /**
   One cycle over a listing, under any downloads, stops and ages: at every point of what it yields, the checkpoint last
   carried marks a file processed only if all its rows were yielded or filtered or it was given up by age, and no
   non-empty listed file created before the watermark is left undone. What it yields is exactly the rows of the files, in
   order, and a completed cycle carries the checkpoint that all settled non-empty files folded in give.
   */
  method ProcessEventType(cfg: Config, listing: seq<File>, start: Checkpoint, stop: nat -> bool, stopRow: (nat, nat) -> bool)
    returns (log: seq<Event>, c: Checkpoint, completed: bool, at: nat)
    requires Listed(listing, start) && UniqueIds(start.ids)
    ensures Sound(cfg, Unprocessed(listing, start.ids), start, log)
    ensures !completed ==> CutAt(cfg, Unprocessed(listing, start.ids), start, log, at, stop, stopRow)
    ensures completed ==> Completes(cfg, Unprocessed(listing, start.ids), start, log, c)
  {
    UnprocessedSpec(listing, start);
    log, c, completed, at := ProcessFiles(cfg, Unprocessed(listing, start.ids), start, stop, stopRow);
  }
}
