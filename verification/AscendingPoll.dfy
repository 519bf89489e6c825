/**
 The ascending polls with a compound (timestamp, Id) cursor: ordinary event objects
 (src/sf2loki/sources/eventlog_objects_source.py, `_process_object`) and Apex logs
 (src/sf2loki/sources/apexlog_source.py, `_poll`).

 The table is frozen and sorted by (timestamp, id); ids are unique. The id is an integer that stands for the server's
 order on record ids.
 */
module AscendingPoll {
  import opened Options
  import opened Windows

  datatype Row = Row(ts: int, id: int)

  /** A checkpoint: the watermark and the ids of the rows last seen. */
  datatype Checkpoint = Checkpoint(watermark: int, window: seq<int>)

  /** The WHERE clause: at or after a time, or past a row. */
  datatype Cursor = From(ts: int) | Past(ts: int, id: int)

  function CursorOf(c: Checkpoint): Cursor {
    if c.window == [] then From(c.watermark) else Past(c.watermark, c.window[|c.window| - 1])
  }

  predicate Beyond(r: Row, cursor: Cursor) {
    match cursor
    case From(ts) => r.ts >= ts
    case Past(ts, id) => r.ts > ts || (r.ts == ts && r.id > id)
  }

  predicate Sorted(table: seq<Row>) {
    forall i, j :: 0 <= i < j < |table| ==> Beyond(table[j], Past(table[i].ts, table[i].id))
  }

  predicate UniqueIds(table: seq<Row>) {
    forall i, j :: 0 <= i < j < |table| ==> table[i].id != table[j].id
  }

  predicate Frozen(table: seq<Row>) {
    Sorted(table) && UniqueIds(table)
  }

  /** The rows a query selects. */
  function Matching(table: seq<Row>, cursor: Cursor): seq<Row> {
    if table == [] then []
    else (if Beyond(table[0], cursor) then [table[0]] else []) + Matching(table[1..], cursor)
  }

  /** The answer of the server: the first rows selected, up to the page limit. */
  function Page(table: seq<Row>, cursor: Cursor): seq<Row> {
    var rows := Matching(table, cursor);
    if |rows| > PAGE_LIMIT then rows[..PAGE_LIMIT] else rows
  }

  function Advanced(c: Checkpoint, r: Row): Checkpoint {
    Checkpoint(r.ts, Tail(c.window + [r.id]))
  }

  /** The checkpoint once the first `n` rows were passed. */
  function Walk(c: Checkpoint, rows: seq<Row>, n: nat): Checkpoint
    requires n <= |rows|
  {
    if n == 0 then c else Advanced(Walk(c, rows, n - 1), rows[n - 1])
  }

  /** A yielded entry and the checkpoint it carries. */
  datatype Emission = Emission(row: Row, token: Checkpoint)

  /** What the first `n` rows yield; `keep` is the transforms' and the sampling's decision. */
  function Emissions(c: Checkpoint, rows: seq<Row>, keep: Row -> bool, n: nat): seq<Emission>
    requires n <= |rows|
  {
    if n == 0 then []
    else
      Emissions(c, rows, keep, n - 1)
      + (if keep(rows[n - 1]) then [Emission(rows[n - 1], Walk(c, rows, n))] else [])
  }

  /** No remembered id belongs to a row still to come. */
  predicate Behind(table: seq<Row>, c: Checkpoint) {
    forall r :: r in Matching(table, CursorOf(c)) ==> r.id !in c.window
  }

  // ----- the cursor -----

  lemma {:induction false} MatchingMembers(table: seq<Row>, cursor: Cursor)
    ensures forall r :: r in Matching(table, cursor) <==> r in table && Beyond(r, cursor)
  {
    if table != [] {
      MatchingMembers(table[1..], cursor);
      assert table == [table[0]] + table[1..];
    }
  }

  lemma {:induction false} MatchingAll(table: seq<Row>, cursor: Cursor)
    requires forall i :: 0 <= i < |table| ==> Beyond(table[i], cursor)
    ensures Matching(table, cursor) == table
  {
    if table != [] {
      MatchingAll(table[1..], cursor);
    }
  }

  /** In a sorted table a query selects a suffix. */
  lemma {:induction false} MatchingIsSuffix(table: seq<Row>, cursor: Cursor) returns (m: nat)
    requires Sorted(table)
    ensures m <= |table| && Matching(table, cursor) == table[m..]
  {
    if table == [] {
      m := 0;
    } else if Beyond(table[0], cursor) {
      m := 0;
      MatchingAll(table, cursor);
    } else {
      m := MatchingIsSuffix(table[1..], cursor);
      m := m + 1;
    }
  }

  /** Past a row of the table come exactly the rows after it. */
  lemma {:induction false} PastRow(table: seq<Row>, j: nat)
    requires Sorted(table) && j < |table|
    ensures Matching(table, Past(table[j].ts, table[j].id)) == table[j + 1..]
  {
    var cursor := Past(table[j].ts, table[j].id);
    if j == 0 {
      MatchingAll(table[1..], cursor);
    } else {
      assert Beyond(table[j], Past(table[0].ts, table[0].id));
      assert !Beyond(table[0], cursor);
      PastRow(table[1..], j - 1);
    }
  }

  lemma {:induction false} WalkEnd(c: Checkpoint, rows: seq<Row>, n: nat)
    requires 0 < n <= |rows|
    ensures CursorOf(Walk(c, rows, n)) == Past(rows[n - 1].ts, rows[n - 1].id)
  {
    var ids := Walk(c, rows, n - 1).window + [rows[n - 1].id];
    assert Tail(ids)[|Tail(ids)| - 1] == ids[|ids| - 1];
  }

  lemma {:induction false} PastRowOfSuffix(table: seq<Row>, m: nat, n: nat)
    requires Sorted(table) && 0 < n && m + n <= |table|
    ensures Matching(table, Past(table[m..][n - 1].ts, table[m..][n - 1].id)) == table[m..][n..]
  {
    PastRow(table, m + n - 1);
  }

  /** After `n` rows the rows still to come are the rest. */
  lemma {:induction false} WalkLeavesRest(table: seq<Row>, c: Checkpoint, n: nat)
    requires Sorted(table) && n <= |Matching(table, CursorOf(c))|
    ensures var rows := Matching(table, CursorOf(c)); Matching(table, CursorOf(Walk(c, rows, n))) == rows[n..]
  {
    if n > 0 {
      var m := MatchingIsSuffix(table, CursorOf(c));
      WalkEnd(c, Matching(table, CursorOf(c)), n);
      PastRowOfSuffix(table, m, n);
    }
  }

  lemma {:induction false} WalkedWindow(c: Checkpoint, rows: seq<Row>, n: nat, id: int)
    requires n <= |rows| && id in Walk(c, rows, n).window
    ensures id in c.window || exists i :: 0 <= i < n && rows[i].id == id
  {
    if n > 0 {
      var before := Walk(c, rows, n - 1).window;
      assert id in before + [rows[n - 1].id];
      if id in before {
        WalkedWindow(c, rows, n - 1, id);
      }
    }
  }

  lemma {:induction false} WalkStaysBehind(table: seq<Row>, c: Checkpoint, n: nat)
    requires Frozen(table) && Behind(table, c) && n <= |Matching(table, CursorOf(c))|
    ensures Behind(table, Walk(c, Matching(table, CursorOf(c)), n))
  {
    var rows := Matching(table, CursorOf(c));
    var m := MatchingIsSuffix(table, CursorOf(c));
    WalkLeavesRest(table, c, n);
    var w := Walk(c, rows, n);
    forall r | r in rows[n..]
      ensures r.id !in w.window
    {
      var j :| n <= j < |rows| && rows[j] == r;
      forall i | 0 <= i < n
        ensures rows[i].id != r.id
      {
        assert rows[i] == table[m + i] && rows[j] == table[m + j];
      }
      assert r in rows;
      if r.id in w.window {
        WalkedWindow(c, rows, n, r.id);
      }
    }
  }

  // ----- resuming -----

  lemma {:induction false} WalkSplits(c: Checkpoint, rows: seq<Row>, n: nat, rest: seq<Row>, k: nat)
    requires n + k <= |rows| && k <= |rest| && forall i :: 0 <= i < k ==> rest[i] == rows[n + i]
    ensures Walk(Walk(c, rows, n), rest, k) == Walk(c, rows, n + k)
  {
    if k > 0 {
      WalkSplits(c, rows, n, rest, k - 1);
    }
  }

  lemma {:induction false} EmissionsSplit(c: Checkpoint, rows: seq<Row>, keep: Row -> bool, n: nat, rest: seq<Row>, k: nat)
    requires n + k <= |rows| && k <= |rest| && forall i :: 0 <= i < k ==> rest[i] == rows[n + i]
    ensures Emissions(c, rows, keep, n + k) == Emissions(c, rows, keep, n) + Emissions(Walk(c, rows, n), rest, keep, k)
  {
    if k > 0 {
      EmissionsSplit(c, rows, keep, n, rest, k - 1);
      WalkSplits(c, rows, n, rest, k);
    }
  }

  /** The i-th entry comes from some row, with the entries before it coming from the rows before. */
  lemma {:induction false} EmissionComesFromRow(c: Checkpoint, rows: seq<Row>, keep: Row -> bool, n: nat, i: nat) returns (m: nat)
    requires n <= |rows| && i < |Emissions(c, rows, keep, n)|
    ensures 0 < m <= n && |Emissions(c, rows, keep, m)| == i + 1
    ensures Emissions(c, rows, keep, n)[i] == Emission(rows[m - 1], Walk(c, rows, m))
    ensures Emissions(c, rows, keep, n)[..i + 1] == Emissions(c, rows, keep, m)
  {
    if i < |Emissions(c, rows, keep, n - 1)| {
      m := EmissionComesFromRow(c, rows, keep, n - 1, i);
    } else {
      m := n;
    }
  }

  /** All that a poll from `c` yields. */
  function Stream(table: seq<Row>, c: Checkpoint, keep: Row -> bool): seq<Emission> {
    var rows := Matching(table, CursorOf(c));
    Emissions(c, rows, keep, |rows|)
  }

  /** Resuming from the checkpoint of any entry yields exactly the entries after it, checkpoints included. */
  lemma {:induction false} ResumeYieldsRest(table: seq<Row>, c: Checkpoint, keep: Row -> bool, i: nat)
    requires Frozen(table) && Behind(table, c) && i < |Stream(table, c, keep)|
    ensures var token := Stream(table, c, keep)[i].token;
            Behind(table, token) && Stream(table, token, keep) == Stream(table, c, keep)[i + 1..]
  {
    var rows := Matching(table, CursorOf(c));
    var all := Stream(table, c, keep);
    var m := EmissionComesFromRow(c, rows, keep, |rows|, i);
    WalkStaysBehind(table, c, m);
    WalkLeavesRest(table, c, m);
    var token, rest := Walk(c, rows, m), rows[m..];
    EmissionsSplit(c, rows, keep, m, rest, |rest|);
    Dropped(all, Emissions(c, rows, keep, m), Emissions(token, rest, keep, |rest|));
    StreamOf(table, token, keep, rest);
  }

  lemma {:induction false} StreamOf(table: seq<Row>, c: Checkpoint, keep: Row -> bool, rows: seq<Row>)
    requires Matching(table, CursorOf(c)) == rows
    ensures Stream(table, c, keep) == Emissions(c, rows, keep, |rows|)
  {
  }

  lemma {:induction false} Dropped(all: seq<Emission>, first: seq<Emission>, rest: seq<Emission>)
    requires all == first + rest
    ensures all[|first|..] == rest
  {
  }

  /** With nothing filtered the entries are the rows still to come, in order and each once. */
  lemma {:induction false} UnfilteredStream(c: Checkpoint, rows: seq<Row>, keep: Row -> bool, n: nat)
    requires n <= |rows| && forall r :: r in rows ==> keep(r)
    ensures |Emissions(c, rows, keep, n)| == n
    ensures forall i :: 0 <= i < n ==> Emissions(c, rows, keep, n)[i] == Emission(rows[i], Walk(c, rows, i + 1))
  {
    if n > 0 {
      UnfilteredStream(c, rows, keep, n - 1);
    }
  }

  /** With nothing filtered a poll yields every row still to come once, and the i-th checkpoint leaves exactly the rows after it. */
  lemma {:induction false} UnfilteredPoll(table: seq<Row>, c: Checkpoint, keep: Row -> bool, i: nat)
    requires Frozen(table) && Behind(table, c) && (forall r :: keep(r)) && i < |Matching(table, CursorOf(c))|
    ensures var rows := Matching(table, CursorOf(c));
            && |Stream(table, c, keep)| == |rows|
            && Stream(table, c, keep)[i].row == rows[i]
            && Matching(table, CursorOf(Stream(table, c, keep)[i].token)) == rows[i + 1..]
  {
    var rows := Matching(table, CursorOf(c));
    UnfilteredStream(c, rows, keep, |rows|);
    WalkLeavesRest(table, c, i + 1);
  }

  // ----- the loops -----

  /** The rows of a page whose id is not remembered. */
  function Unseen(window: seq<int>, page: seq<Row>): seq<Row> {
    if page == [] then []
    else (if page[0].id in window then [] else [page[0]]) + Unseen(window, page[1..])
  }

  lemma {:induction false} AllUnseen(window: seq<int>, page: seq<Row>)
    requires forall r :: r in page ==> r.id !in window
    ensures Unseen(window, page) == page
  {
    if page != [] {
      assert page[0] in page;
      assert forall r :: r in page[1..] ==> r in page;
      AllUnseen(window, page[1..]);
    }
  }

  lemma {:induction false} UnseenMembers(window: seq<int>, page: seq<Row>)
    ensures forall r :: r in Unseen(window, page) ==> r in page
  {
    if page != [] {
      UnseenMembers(window, page[1..]);
    }
  }

  /** A cursor past a selected row selects fewer rows. */
  lemma {:induction false} FewerAhead(table: seq<Row>, cursor: Cursor, r: Row)
    requires Beyond(r, cursor)
    ensures |Matching(table, Past(r.ts, r.id))| <= |Matching(table, cursor)|
    ensures r in table ==> |Matching(table, Past(r.ts, r.id))| < |Matching(table, cursor)|
  {
    if table != [] {
      FewerAhead(table[1..], cursor, r);
    }
  }

  /** Where a poll stands: it has passed the first `n` of the rows it must pass. */
  predicate Standing(table: seq<Row>, start: Checkpoint, c: Checkpoint, n: nat) {
    var rows := Matching(table, CursorOf(start));
    && n <= |rows|
    && c == Walk(start, rows, n)
    && Matching(table, CursorOf(c)) == rows[n..]
    && Behind(table, c)
  }

  lemma {:induction false} PageIsUnseen(table: seq<Row>, start: Checkpoint, c: Checkpoint, n: nat)
    requires Standing(table, start, c, n)
    ensures var rows := Matching(table, CursorOf(start));
            var page := Page(table, CursorOf(c));
            && n + |page| <= |rows| && page == rows[n..n + |page|]
            && Unseen(c.window, page) == page
            && (|page| < PAGE_LIMIT ==> n + |page| == |rows|)
  {
    var rest := Matching(table, CursorOf(c));
    var page := Page(table, CursorOf(c));
    assert forall r :: r in page ==> r in rest;
    AllUnseen(c.window, page);
    FirstPart(Matching(table, CursorOf(start)), n, rest, page);
  }

  lemma {:induction false} FirstPart(rows: seq<Row>, n: nat, rest: seq<Row>, page: seq<Row>)
    requires n <= |rows| && rest == rows[n..] && page == if |rest| > PAGE_LIMIT then rest[..PAGE_LIMIT] else rest
    ensures n + |page| <= |rows| && page == rows[n..n + |page|] && (|page| < PAGE_LIMIT ==> n + |page| == |rows|)
  {
  }

  /** What a poll yielded: the entries of the first `n` rows, and a last checkpoint when there was none of them. */
  datatype Outcome = Outcome(entries: seq<Emission>, only: Option<Checkpoint>, n: nat, cut: bool, stalled: bool)

  /** The outcome expected of a poll that starts behind the rows to come. */
  predicate Exact(table: seq<Row>, start: Checkpoint, keep: Row -> bool, o: Outcome) {
    var rows := Matching(table, CursorOf(start));
    && !o.stalled
    && o.n <= |rows|
    && o.entries == Emissions(start, rows, keep, o.n)
    && (!o.cut ==> o.n == |rows|)
    && o.only == (if !o.cut && o.entries == [] && o.n > 0 then Some(Walk(start, rows, o.n)) else None)
  }

  lemma {:induction false} Passed(table: seq<Row>, start: Checkpoint, c: Checkpoint, n: nat)
    requires Frozen(table) && Behind(table, start) && n <= |Matching(table, CursorOf(start))|
    requires c == Walk(start, Matching(table, CursorOf(start)), n)
    ensures Standing(table, start, c, n)
  {
    WalkLeavesRest(table, start, n);
    WalkStaysBehind(table, start, n);
  }

  lemma {:induction false} PageIsAhead(table: seq<Row>, c: Checkpoint, r: Row)
    requires r in Unseen(c.window, Page(table, CursorOf(c)))
    ensures |Matching(table, Past(r.ts, r.id))| < |Matching(table, CursorOf(c))|
  {
    UnseenMembers(c.window, Page(table, CursorOf(c)));
    assert r in Page(table, CursorOf(c));
    assert r in Matching(table, CursorOf(c));
    MatchingMembers(table, CursorOf(c));
    FewerAhead(table, CursorOf(c), r);
  }

  /** A poll that moved no longer stands on the checkpoint it started from. */
  lemma {:induction false} MovedMeansChanged(table: seq<Row>, start: Checkpoint, n: nat)
    requires Behind(table, start) && 0 < n <= |Matching(table, CursorOf(start))|
    ensures Walk(start, Matching(table, CursorOf(start)), n) != start
  {
    var rows := Matching(table, CursorOf(start));
    WalkEnd(start, rows, n);
    assert rows[n - 1] in rows;
  }

  /** The checkpoint and the entries are those of the first `n` rows. */
  predicate Along(start: Checkpoint, rows: seq<Row>, keep: Row -> bool, c: Checkpoint, n: nat, entries: seq<Emission>) {
    n <= |rows| && c == Walk(start, rows, n) && entries == Emissions(start, rows, keep, n)
  }

  predicate Slice(rows: seq<Row>, n: nat, part: seq<Row>) {
    n + |part| <= |rows| && part == rows[n..n + |part|]
  }

  /** The rows a poll must pass, if it starts behind them. */
  datatype Plan = Plan(behind: bool, start: Checkpoint, rows: seq<Row>, keep: Row -> bool)

  predicate Planned(table: seq<Row>, plan: Plan) {
    plan.behind ==> Behind(table, plan.start) && plan.rows == Matching(table, CursorOf(plan.start))
  }

  /** Where a poll is between two pages. */
  predicate OnTrack(plan: Plan, c: Checkpoint, n: nat, entries: seq<Emission>) {
    plan.behind ==> Along(plan.start, plan.rows, plan.keep, c, n, entries)
  }

  predicate AtEnd(plan: Plan, n: nat, stalled: bool) {
    plan.behind ==> n == |plan.rows| && !stalled
  }

  predicate PageFits(plan: Plan, n: nat, page: seq<Row>, unseen: seq<Row>) {
    plan.behind ==>
      && Slice(plan.rows, n, unseen)
      && unseen == page
      && (|page| < PAGE_LIMIT ==> n + |page| == |plan.rows|)
  }

  lemma {:induction false} TrackedPage(table: seq<Row>, plan: Plan, c: Checkpoint, n: nat, entries: seq<Emission>)
    requires Frozen(table) && Planned(table, plan) && OnTrack(plan, c, n, entries)
    ensures var page := Page(table, CursorOf(c)); PageFits(plan, n, page, Unseen(c.window, page))
  {
    if plan.behind {
      Passed(table, plan.start, c, n);
      PageIsUnseen(table, plan.start, c, n);
    }
  }

  lemma {:induction false} AlongPart(start: Checkpoint, rows: seq<Row>, keep: Row -> bool, c: Checkpoint, n: nat,
                                     entries: seq<Emission>, part: seq<Row>, m: nat)
    requires Along(start, rows, keep, c, n, entries) && Slice(rows, n, part) && m <= |part|
    ensures Along(start, rows, keep, Walk(c, part, m), n + m, entries + Emissions(c, part, keep, m))
  {
    WalkSplits(start, rows, n, part, m);
    EmissionsSplit(start, rows, keep, n, part, m);
  }

  /** Emit rows one by one; `stop` may cut in before any of them. */
  method EmitPage(c: Checkpoint, rows: seq<Row>, keep: Row -> bool, stop: nat -> bool, n: nat)
    returns (c': Checkpoint, m: nat, entries: seq<Emission>)
    ensures m <= |rows| && c' == Walk(c, rows, m) && entries == Emissions(c, rows, keep, m)
    ensures m < |rows| ==> stop(n + m)
  {
    c', m, entries := c, 0, [];
    while m < |rows|
      invariant m <= |rows| && c' == Walk(c, rows, m) && entries == Emissions(c, rows, keep, m)
    {
      if stop(n + m) {
        return;
      }
      c' := Advanced(c', rows[m]);
      if keep(rows[m]) {
        entries := entries + [Emission(rows[m], c')];
      }
      m := m + 1;
    }
  }

  lemma {:induction false} CutIsExact(table: seq<Row>, plan: Plan, c: Checkpoint, n: nat, entries: seq<Emission>)
    requires Planned(table, plan) && OnTrack(plan, c, n, entries)
    ensures plan.behind ==> Exact(table, plan.start, plan.keep, Outcome(entries, None, n, true, false))
  {
  }

  lemma {:induction false} EndIsExact(table: seq<Row>, plan: Plan, c: Checkpoint, n: nat, entries: seq<Emission>,
                                      only: Option<Checkpoint>, stalled: bool)
    requires Planned(table, plan) && OnTrack(plan, c, n, entries) && AtEnd(plan, n, stalled)
    requires plan.behind ==> only == if entries == [] && n > 0 then Some(c) else None
    ensures plan.behind ==> Exact(table, plan.start, plan.keep, Outcome(entries, only, n, false, stalled))
  {
  }

  lemma {:induction false} MovedIsProgress(table: seq<Row>, plan: Plan, c: Checkpoint, n: nat, entries: seq<Emission>)
    requires Planned(table, plan) && OnTrack(plan, c, n, entries)
    ensures plan.behind ==> (c != plan.start <==> n > 0)
  {
    if plan.behind && n > 0 {
      MovedMeansChanged(table, plan.start, n);
    }
  }

  /** Emitting `m` of the unseen rows of a page keeps the poll on track, and a short page is the last. */
  lemma {:induction false} PageKeepsTrack(table: seq<Row>, plan: Plan, c: Checkpoint, n: nat, entries: seq<Emission>,
                                          unseen: seq<Row>, m: nat)
    requires Frozen(table) && Planned(table, plan) && OnTrack(plan, c, n, entries)
    requires unseen == Unseen(c.window, Page(table, CursorOf(c))) && m <= |unseen|
    ensures OnTrack(plan, Walk(c, unseen, m), n + m, entries + Emissions(c, unseen, plan.keep, m))
    ensures m == |unseen| && |Page(table, CursorOf(c))| < PAGE_LIMIT ==> AtEnd(plan, n + m, false)
    ensures |unseen| == 0 ==> AtEnd(plan, n + m, |Page(table, CursorOf(c))| >= PAGE_LIMIT)
  {
    TrackedPage(table, plan, c, n, entries);
    if plan.behind {
      AlongPart(plan.start, plan.rows, plan.keep, c, n, entries, unseen, m);
    }
  }

  /** Emitting a whole page brings the end nearer. */
  lemma {:induction false} PageAdvances(table: seq<Row>, c: Checkpoint, unseen: seq<Row>)
    requires unseen == Unseen(c.window, Page(table, CursorOf(c))) && |unseen| > 0
    ensures |Matching(table, CursorOf(Walk(c, unseen, |unseen|)))| < |Matching(table, CursorOf(c))|
  {
    PageIsAhead(table, c, unseen[|unseen| - 1]);
    WalkEnd(c, unseen, |unseen|);
  }

  /** Apex logs trim an overlong window when the checkpoint is loaded. */
  function Loaded(c: Checkpoint): Checkpoint {
    c.(window := Tail(c.window))
  }

  lemma {:induction false} LoadedIsBehind(table: seq<Row>, c: Checkpoint)
    ensures CursorOf(Loaded(c)) == CursorOf(c)
    ensures Behind(table, c) ==> Behind(table, Loaded(c))
  {
  }

  predicate Trimmed(c: Checkpoint) {
    |c.window| <= MAX_CARRIED_IDS
  }

  /** Append an id in place and drop the oldest beyond the limit. */
  method Remember(window: seq<int>, id: int) returns (longer: seq<int>)
    requires |window| <= MAX_CARRIED_IDS
    ensures longer == Tail(window + [id]) && |longer| <= MAX_CARRIED_IDS
  {
    longer := window + [id];
    if |longer| > MAX_CARRIED_IDS {
      longer := longer[1..];
    }
  }

  /** Emit Apex logs one by one; a row whose body download is throttled ends the cycle without being yielded. */
  method EmitLogs(c: Checkpoint, rows: seq<Row>, keep: Row -> bool, stop: nat -> bool, throttled: nat -> bool, n: nat)
    returns (c': Checkpoint, m: nat, entries: seq<Emission>)
    requires Trimmed(c)
    ensures m <= |rows| && Trimmed(c')
    ensures c' == Walk(c, rows, m) && entries == Emissions(c, rows, keep, m)
    ensures m < |rows| ==> stop(n + m) || throttled(n + m)
  {
    c', m, entries := c, 0, [];
    while m < |rows|
      invariant m <= |rows| && Trimmed(c') && c' == Walk(c, rows, m) && entries == Emissions(c, rows, keep, m)
    {
      if stop(n + m) {
        return;
      }
      var window := Remember(c'.window, rows[m].id);
      var next := Checkpoint(rows[m].ts, window);
      if keep(rows[m]) {
        if throttled(n + m) {
          return;
        }
        entries := entries + [Emission(rows[m], next)];
      }
      c', m := next, m + 1;
    }
  }

  /** How a page leaves the loop: with more to come, at the end, or cut off. */
  datatype Status = More | Finished(stalled: bool) | Cut

  /** Where a page brings a poll that stood at `before`. */
  ghost predicate Arrived(table: seq<Row>, plan: Plan, before: Checkpoint, c: Checkpoint, n: nat, entries: seq<Emission>, status: Status) {
    && OnTrack(plan, c, n, entries)
    && match status
       case More => |Matching(table, CursorOf(c))| < |Matching(table, CursorOf(before))|
       case Finished(stalled) => AtEnd(plan, n, stalled)
       case Cut => true
  }

  function StatusOf(size: nat, unseen: nat, m: nat): Status {
    if unseen == 0 then Finished(size >= PAGE_LIMIT)
    else if m < unseen then Cut
    else if size < PAGE_LIMIT then Finished(false)
    else More
  }

  lemma {:induction false} PageArrives(table: seq<Row>, plan: Plan, c: Checkpoint, n: nat, entries: seq<Emission>, unseen: seq<Row>, m: nat)
    requires Frozen(table) && Planned(table, plan) && OnTrack(plan, c, n, entries)
    requires unseen == Unseen(c.window, Page(table, CursorOf(c))) && m <= |unseen|
    ensures Arrived(table, plan, c, Walk(c, unseen, m), n + m, entries + Emissions(c, unseen, plan.keep, m),
                    StatusOf(|Page(table, CursorOf(c))|, |unseen|, m))
  {
    PageKeepsTrack(table, plan, c, n, entries, unseen, m);
    if |unseen| > 0 {
      PageAdvances(table, c, unseen);
    }
  }

  /** One page: fetch it, skip what is remembered, emit the rest. Apex logs update the window in place and may be throttled. */
  method OnePage(table: seq<Row>, ghost plan: Plan, c: Checkpoint, n: nat, entries: seq<Emission>, keep: Row -> bool,
                 logs: bool, stop: nat -> bool, throttled: nat -> bool)
    returns (c': Checkpoint, n': nat, entries': seq<Emission>, status: Status)
    requires Frozen(table) && Planned(table, plan) && plan.keep == keep && OnTrack(plan, c, n, entries) && (logs ==> Trimmed(c))
    ensures Arrived(table, plan, c, c', n', entries', status) && (logs ==> Trimmed(c'))
    ensures status.Cut? ==> stop(n') || (logs && throttled(n'))
  {
    var page := Page(table, CursorOf(c));
    var unseen := Unseen(c.window, page);
    var m, emitted;
    if logs {
      c', m, emitted := EmitLogs(c, unseen, keep, stop, throttled, n);
    } else {
      c', m, emitted := EmitPage(c, unseen, keep, stop, n);
    }
    PageArrives(table, plan, c, n, entries, unseen, m);
    n', entries' := n + m, entries + emitted;
    status := StatusOf(|page|, |unseen|, m);
  }

  /** The page loop of both polls. */
  method Drain(table: seq<Row>, ghost plan: Plan, start: Checkpoint, keep: Row -> bool, fails: nat -> bool,
               logs: bool, stop: nat -> bool, throttled: nat -> bool)
    returns (c: Checkpoint, n: nat, entries: seq<Emission>, cut: bool, stalled: bool)
    requires Frozen(table) && Planned(table, plan) && plan.start == start && plan.keep == keep && (logs ==> Trimmed(start))
    ensures OnTrack(plan, c, n, entries)
    ensures cut ==> exists i :: fails(i) || stop(i) || (logs && throttled(i))
    ensures !cut ==> AtEnd(plan, n, stalled)
  {
    var queries: nat := 0;
    c, n, entries, cut, stalled := start, 0, [], false, false;
    while true
      invariant OnTrack(plan, c, n, entries) && (logs ==> Trimmed(c))
      decreases |Matching(table, CursorOf(c))|
    {
      if fails(queries) {
        cut := true;
        return;
      }
      queries := queries + 1;
      var status;
      c, n, entries, status := OnePage(table, plan, c, n, entries, keep, logs, stop, throttled);
      match status
      case Cut =>
        cut := true;
        return;
      case Finished(stuck) =>
        cut, stalled := false, stuck;
        return;
      case More =>
    }
  }

  /** The poll of an ordinary event object; `fails` tells which queries fail and `stop` before which row it is stopped. */
  method PollObject(table: seq<Row>, start: Checkpoint, keep: Row -> bool, fails: nat -> bool, stop: nat -> bool)
    returns (o: Outcome)
    requires Frozen(table)
    ensures Behind(table, start) ==> Exact(table, start, keep, o)
    ensures o.cut ==> exists i :: fails(i) || stop(i)
  {
    ghost var plan := Plan(Behind(table, start), start, Matching(table, CursorOf(start)), keep);
    var c, n, entries, cut, stalled := Drain(table, plan, start, keep, fails, false, stop, _ => false);
    if cut {
      CutIsExact(table, plan, c, n, entries);
      return Outcome(entries, None, n, true, false);
    }
    MovedIsProgress(table, plan, c, n, entries);
    var only := if entries == [] && c != start then Some(c) else None;
    EndIsExact(table, plan, c, n, entries, only, stalled);
    o := Outcome(entries, only, n, false, stalled);
  }

  /** The poll of Apex logs: an overlong stored window is trimmed first, which loses nothing. */
  method PollApexLogs(table: seq<Row>, stored: Checkpoint, keep: Row -> bool, fails: nat -> bool, stop: nat -> bool,
                      throttled: nat -> bool)
    returns (o: Outcome)
    requires Frozen(table)
    ensures Behind(table, stored) ==>
              Exact(table, Loaded(stored), keep, o) && Matching(table, CursorOf(Loaded(stored))) == Matching(table, CursorOf(stored))
    ensures o.cut ==> exists i :: fails(i) || stop(i) || throttled(i)
  {
    LoadedIsBehind(table, stored);
    var start := Checkpoint(stored.watermark, Tail(stored.window));
    ghost var plan := Plan(Behind(table, start), start, Matching(table, CursorOf(start)), keep);
    var c, n, entries, cut, stalled := Drain(table, plan, start, keep, fails, true, stop, throttled);
    if cut {
      CutIsExact(table, plan, c, n, entries);
      return Outcome(entries, None, n, true, false);
    }
    var anyProgress := n > 0;
    var only := if entries == [] && anyProgress then Some(c) else None;
    EndIsExact(table, plan, c, n, entries, only, stalled);
    o := Outcome(entries, only, n, false, stalled);
  }
}
