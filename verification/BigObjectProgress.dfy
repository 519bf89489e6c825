/**
 Progress of the poll cycles of a Big Object (src/sf2loki/sources/eventlog_objects_source.py): what checkpoint a cycle
 reaches, that its checkpoints get in line to be committed, and exactly which rows the next cycle emits again.
 */
module BigObjectProgress {
  import opened Options
  import opened Windows
  import opened BigObjectDrain
  import opened BigObjectCycles

  // ----- the checkpoint reached -----

  function IdsOf(rows: seq<Record>): (ids: seq<string>)
    ensures |ids| == |rows| && forall i :: 0 <= i < |rows| ==> ids[i] == rows[i].id
  {
    if rows == [] then [] else IdsOf(rows[..|rows| - 1]) + [rows[|rows| - 1].id]
  }

  lemma {:induction false} TailOfTail(ids: seq<string>, id: string)
    ensures Tail(Tail(ids) + [id]) == Tail(ids + [id])
  {
  }

  /** The watermark is the time of the last row emitted, and the window holds the newest ids seen, oldest first. */
  lemma {:induction false} CheckpointReached(c: Checkpoint, rows: seq<Record>, n: nat)
    requires 0 < n <= |rows|
    ensures After(c, rows, n) == Checkpoint(rows[n - 1].ts, Tail(c.window + IdsOf(rows[..n])))
  {
    assert rows[..n][..n - 1] == rows[..n - 1];
    var before, id := c.window + IdsOf(rows[..n - 1]), rows[n - 1].id;
    assert before + [id] == c.window + IdsOf(rows[..n]);
    if n == 1 {
      assert before == c.window;
    } else {
      CheckpointReached(c, rows, n - 1);
      TailOfTail(before, id);
    }
  }

  // ----- which rows come again -----

  /** What stands only once in a sequence stays in its tail exactly if it is among the newest. */
  lemma {:induction false} InTail(ids: seq<string>, k: nat, id: string)
    requires k < |ids| && ids[k] == id && forall j :: 0 <= j < |ids| && j != k ==> ids[j] != id
    ensures id in Tail(ids) <==> |ids| - k <= MAX_CARRIED_IDS
  {
    if |ids| - k <= MAX_CARRIED_IDS && |ids| > MAX_CARRIED_IDS {
      assert Tail(ids)[k - (|ids| - MAX_CARRIED_IDS)] == id;
    }
  }

  lemma {:induction false} UnseenMembers(window: seq<string>, rows: seq<Record>)
    ensures forall r :: r in Unseen(window, rows) <==> r in rows && r.id !in window
    ensures Distinct(rows) ==> Distinct(Unseen(window, rows))
  {
    if rows != [] {
      var front, last := rows[..|rows| - 1], rows[|rows| - 1];
      UnseenMembers(window, front);
      assert rows == front + [last];
      assert Distinct(rows) ==> last !in front;
    }
  }

  /** Rows of a cycle: from the table, each once, none of them in the window. */
  predicate CycleRows(table: set<Record>, c: Checkpoint, rows: seq<Record>) {
    Distinct(rows) && forall i :: 0 <= i < |rows| ==> rows[i] in table && rows[i].id !in c.window
  }

  /** The id of a row stands nowhere else in the window or the cycle. */
  lemma {:induction false} StandsOnce(table: set<Record>, c: Checkpoint, rows: seq<Record>, k: nat, j: nat)
    requires UniqueIds(table) && CycleRows(table, c, rows) && k < |rows| && j < |c.window| + |rows| && j != |c.window| + k
    ensures (c.window + IdsOf(rows))[j] != rows[k].id
  {
    if j < |c.window| {
      assert c.window[j] in c.window;
    } else {
      var i := j - |c.window|;
      assert rows[i] in table && rows[k] in table;
      assert rows[i] != rows[k];
    }
  }

  lemma {:induction false} WindowReached(c: Checkpoint, rows: seq<Record>)
    requires rows != []
    ensures After(c, rows, |rows|).window == Tail(c.window + IdsOf(rows))
  {
    CheckpointReached(c, rows, |rows|);
    assert rows[..|rows|] == rows;
  }

  lemma {:induction false} RememberedExactly(table: set<Record>, c: Checkpoint, rows: seq<Record>, k: nat)
    requires UniqueIds(table) && CycleRows(table, c, rows) && k < |rows|
    ensures rows[k].id in After(c, rows, |rows|).window <==> |rows| - k <= MAX_CARRIED_IDS
  {
    var all := c.window + IdsOf(rows);
    forall j | 0 <= j < |all| && j != |c.window| + k
      ensures all[j] != rows[k].id
    {
      StandsOnce(table, c, rows, k, j);
    }
    InTail(all, |c.window| + k, rows[k].id);
    WindowReached(c, rows);
  }

  /**
   After a complete cycle, a row it emitted is emitted again by the next uncapped one exactly if it shares the newest
   time and the cycle emitted more rows behind it than the window holds.
   */
  lemma {:induction false} RepeatsExactly(table: set<Record>, c: Checkpoint, drained: seq<Record>, next: seq<Record>, k: nat)
    requires UniqueIds(table) && Drained(Selected(table, c.watermark), drained, 0)
    requires k < |Unseen(c.window, drained)|
    requires var rows := Unseen(c.window, drained); Drained(Selected(table, After(c, rows, |rows|).watermark), next, 0)
    ensures var rows := Unseen(c.window, drained);
            rows[k] in Unseen(After(c, rows, |rows|).window, next) <==>
            rows[k].ts == rows[|rows| - 1].ts && |rows| - k > MAX_CARRIED_IDS
  {
    var rows := Unseen(c.window, drained);
    UnseenMembers(c.window, drained);
    RowsOfCycle(table, c, drained, rows);
    RememberedExactly(table, c, rows, k);
    CheckpointReached(c, rows, |rows|);
    var after := After(c, rows, |rows|);
    UnseenMembers(after.window, next);
    NextSelects(table, after.watermark, next, rows[k]);
    UnseenAscends(c.window, drained);
  }

  lemma {:induction false} RowsOfCycle(table: set<Record>, c: Checkpoint, drained: seq<Record>, rows: seq<Record>)
    requires Drained(Selected(table, c.watermark), drained, 0) && Distinct(rows)
    requires forall r :: r in rows <==> r in drained && r.id !in c.window
    ensures CycleRows(table, c, rows)
  {
    forall i | 0 <= i < |rows|
      ensures rows[i] in table && rows[i].id !in c.window
    {
      assert rows[i] in rows;
      assert rows[i] in ToSet(drained);
    }
  }

  lemma {:induction false} NextSelects(table: set<Record>, watermark: int, next: seq<Record>, r: Record)
    requires Drained(Selected(table, watermark), next, 0) && r in table
    ensures r in next <==> r.ts >= watermark
  {
    assert r in ToSet(next) <==> r in next;
    assert r in Selected(table, watermark) <==> r.ts >= watermark;
  }

  lemma {:induction false} UnseenAscends(window: seq<string>, rows: seq<Record>)
    requires Ascending(rows)
    ensures Ascending(Unseen(window, rows))
  {
    if rows != [] {
      var front, last := rows[..|rows| - 1], rows[|rows| - 1];
      UnseenAscends(window, front);
      UnseenMembers(window, front);
      forall i | 0 <= i < |Unseen(window, front)|
        ensures Unseen(window, front)[i].ts <= last.ts
      {
        assert Unseen(window, front)[i] in front;
      }
    }
  }

  // ----- the machine does what the poll does -----

  function PendingTokens(pending: seq<Pending>): (tokens: seq<Checkpoint>)
    ensures |tokens| == |pending| && forall i :: 0 <= i < |pending| ==> tokens[i] == pending[i].token
  {
    if pending == [] then [] else PendingTokens(pending[..|pending| - 1]) + [pending[|pending| - 1].token]
  }

  /** The cycle after `n` of its rows, with the checkpoints of the kept ones in line to be committed. */
  predicate Underway(s: State, t: State, drained: seq<Record>, cap: nat, keep: Record -> bool, n: nat) {
    var rows := Unseen(s.committed.window, drained);
    && n <= |rows| && t.committed == s.committed
    && t.cycle == Some(Cycle(s.committed, drained, cap, n, Carried(s.committed, rows, keep, n) != []))
    && PendingTokens(t.pending) == PendingTokens(s.pending) + Carried(s.committed, rows, keep, n)
  }

  lemma {:induction false} BeginStarts(table: set<Record>, s: State, drained: seq<Record>, cap: nat, keep: Record -> bool)
    requires Enabled(table, s, Begin(drained, cap))
    ensures Underway(s, Apply(table, s, Begin(drained, cap)), drained, cap, keep, 0)
  {
    assert PendingTokens(s.pending) + [] == PendingTokens(s.pending);
  }

  /** Each row of the cycle can be emitted, and a kept one puts the checkpoint past it in line. */
  lemma {:induction false} EmitQueuesToken(table: set<Record>, s: State, t: State, drained: seq<Record>, cap: nat, keep: Record -> bool, n: nat)
    requires Underway(s, t, drained, cap, keep, n) && n < |Unseen(s.committed.window, drained)|
    ensures var a := Emit(keep(Unseen(s.committed.window, drained)[n]));
            Enabled(table, t, a) && Underway(s, Apply(table, t, a), drained, cap, keep, n + 1)
  {
    var u := Apply(table, t, Emit(keep(Unseen(s.committed.window, drained)[n])));
    assert u.pending[..|t.pending|] == t.pending;
  }

  /** The end of the cycle leaves exactly the checkpoints of the poll in line: `PollBigObject` returns the same ones. */
  lemma {:induction false} FinishYieldsTokens(table: set<Record>, s: State, t: State, drained: seq<Record>, cap: nat, keep: Record -> bool)
    requires var rows := Unseen(s.committed.window, drained); Underway(s, t, drained, cap, keep, |rows|)
    ensures Enabled(table, t, Finish)
    ensures var u := Apply(table, t, Finish);
            && u.cycle.None? && u.committed == s.committed
            && PendingTokens(u.pending) ==
               PendingTokens(s.pending) + CarriedBy(s.committed, Unseen(s.committed.window, drained), keep, false)
  {
    var u := Apply(table, t, Finish);
    assert u.pending[..|t.pending|] == t.pending;
  }

  /** Committing any of them makes it the checkpoint the next cycle starts from. */
  lemma {:induction false} CommitMovesOn(table: set<Record>, s: State, upto: nat)
    requires Enabled(table, s, Commit(upto))
    ensures var t := Apply(table, s, Commit(upto));
            t.committed == PendingTokens(s.pending)[upto] && PendingTokens(t.pending) == PendingTokens(s.pending)[upto + 1..]
  {
  }
}
