/**
 The listing loop of a backfill, turn by turn (src/sf2loki/backfill.py, `_process_event_type`): exactly when it ends,
 and what it has pushed when it does.
 */
module BackfillTurns {
  import opened Options
  import opened Backfill

  /** `Crowded`: gave up on a date at which a full page held nothing left to download. */
  datatype End = Complete | Crowded | Interrupted | Aborted

  /** Where an uninterrupted turn leads: to the next listing, or to the end. */
  datatype Turn = More(since: int, c: Cursor, pushed: seq<File>) | Over(end: End, c: Cursor, pushed: seq<File>)

  function TurnOf(table: seq<File>, w: Window, pageSize: nat, since: int, c: Cursor): Turn {
    TurnOn(Listing(table, since, pageSize), w, pageSize, since, c)
  }

  function TurnOn(page: seq<File>, w: Window, pageSize: nat, since: int, c: Cursor): Turn {
    if page == [] || !Before(page[0], w.until) then Over(Complete, c, [])
    else
      var files, next := Kept(page, w, c), page[|page| - 1].created;
      var part := NonEmpty(files);
      var d := Pushed(c, part);
      if |page| < pageSize then Over(Complete, d, part)
      else if files == [] && next == since then Over(Crowded, d, part)
      else More(next, d, part)
  }

  /** `k` turns of any kind, with all they push. */
  function Turns(turn: (int, Cursor) -> Turn, since: int, c: Cursor, k: nat): Turn
    decreases k
  {
    if k == 0 then More(since, c, [])
    else
      var t := turn(since, c);
      if t.Over? then t
      else
        var rest := Turns(turn, t.since, t.c, k - 1);
        rest.(pushed := t.pushed + rest.pushed)
  }

  function Turning(table: seq<File>, w: Window, pageSize: nat): (int, Cursor) -> Turn {
    (since, c) => TurnOf(table, w, pageSize, since, c)
  }

  /** The run after `k` turns. */
  function RunOf(table: seq<File>, w: Window, pageSize: nat, since: int, c: Cursor, k: nat): Turn {
    Turns(Turning(table, w, pageSize), since, c, k)
  }

  /** From a bad state every turn leads to a bad state, and date `d` is never left. */
  ghost predicate Trap(turn: (int, Cursor) -> Turn, bad: (int, Cursor) -> bool, d: int) {
    forall s, e {:trigger bad(s, e), turn(s, e)} ::
      bad(s, e) ==> turn(s, e).More? && bad(turn(s, e).since, turn(s, e).c) && (s == d ==> turn(s, e).since == d)
  }

  /** A trap gives a run without end. */
  lemma {:induction false} TurnsForever(turn: (int, Cursor) -> Turn, bad: (int, Cursor) -> bool, since: int, c: Cursor, d: int, k: nat)
    requires bad(since, c) && Trap(turn, bad, d)
    ensures Turns(turn, since, c, k).More? && (since == d ==> Turns(turn, since, c, k).since == d)
    decreases k
  {
    if k > 0 {
      var t := turn(since, c);
      TurnsForever(turn, bad, t.since, t.c, d, k - 1);
    }
  }

  lemma {:induction false} RunFirst(table: seq<File>, w: Window, pageSize: nat, since: int, c: Cursor, k: nat)
    requires k > 0
    ensures var t := TurnOf(table, w, pageSize, since, c);
            if t.Over? then RunOf(table, w, pageSize, since, c, k) == t
            else
              var rest := RunOf(table, w, pageSize, t.since, t.c, k - 1);
              RunOf(table, w, pageSize, since, c, k) == rest.(pushed := t.pushed + rest.pushed)
  {
  }

  ghost predicate Ends(table: seq<File>, w: Window, pageSize: nat, since: int, c: Cursor) {
    exists k: nat :: RunOf(table, w, pageSize, since, c, k).Over?
  }

  // ----- crowded dates -----

  /** A page or more of files share the date. */
  predicate CrowdedAt(table: seq<File>, pageSize: nat, d: int) {
    pageSize > 0 && |Listing(table, d, pageSize)| == pageSize && Listing(table, d, pageSize)[pageSize - 1].created == d
  }

  ghost predicate FirstCrowded(table: seq<File>, pageSize: nat, low: int, d: int) {
    low <= d && CrowdedAt(table, pageSize, d) && forall e :: low <= e < d ==> !CrowdedAt(table, pageSize, e)
  }

  predicate DateBefore(d: int, until: Option<int>) {
    until.Some? ==> d < until.value
  }

  /** An empty file that the cursor does not mark as done at its date. */
  predicate UndoneEmpty(f: File, c: Cursor) {
    f.entries == [] && !DoneAtBoundary(f, c)
  }

  predicate HasUndoneEmpty(page: seq<File>, c: Cursor) {
    exists i :: 0 <= i < |page| && UndoneEmpty(page[i], c)
  }

  /** The first crowded date at or after `low` lies in the window, and its first page holds an empty file not done. */
  ghost predicate Stuck(table: seq<File>, w: Window, pageSize: nat, low: int, c: Cursor) {
    exists d :: FirstCrowded(table, pageSize, low, d) && DateBefore(d, w.until) && HasUndoneEmpty(Listing(table, d, pageSize), c)
  }

  lemma {:induction false} CutsInOrder(table: seq<File>, since: int, m: nat, d: int, k: nat)
    requires since <= d && Cut(table, since, m) && Cut(table, d, k)
    ensures m <= k
  {
    assert m > 0 ==> table[m - 1].created < d;
  }

  /** A listing at or before a crowded date is full and ends no later than the date. */
  lemma {:induction false} CrowdStops(table: seq<File>, pageSize: nat, since: int, d: int)
    requires Frozen(table) && CrowdedAt(table, pageSize, d) && since <= d
    ensures var page := Listing(table, since, pageSize);
            |page| == pageSize && page[0].created <= page[pageSize - 1].created <= d
  {
    var m := PageIsSlice(table, since, pageSize);
    var k := PageIsSlice(table, d, pageSize);
    CutsInOrder(table, since, m, d, k);
    FrozenIsAscending(table);
    assert Listing(table, d, pageSize)[pageSize - 1] == table[k + pageSize - 1];
    assert Listing(table, since, pageSize)[pageSize - 1] == table[m + pageSize - 1];
    assert Listing(table, since, pageSize)[0] == table[m];
  }

  /** All files of a listing that ends at the date it starts from share the date. */
  lemma {:induction false} CrowdShares(table: seq<File>, pageSize: nat, d: int)
    requires Frozen(table) && CrowdedAt(table, pageSize, d)
    ensures forall i :: 0 <= i < pageSize ==> Listing(table, d, pageSize)[i].created == d && Listing(table, d, pageSize)[i] in table
  {
    var m := PageIsSlice(table, d, pageSize);
    FrozenIsAscending(table);
    forall i | 0 <= i < pageSize
      ensures Listing(table, d, pageSize)[i].created == d && Listing(table, d, pageSize)[i] in table
    {
      assert Listing(table, d, pageSize)[i] == table[m + i];
      assert Listing(table, d, pageSize)[pageSize - 1] == table[m + pageSize - 1];
    }
  }

  // ----- empty files stay undone -----

  lemma {:induction false} PushingIsForOthers(f: File, c: Cursor, files: seq<File>)
    requires UndoneEmpty(f, c) && forall i :: 0 <= i < |files| ==> files[i].id != f.id
    ensures UndoneEmpty(f, Pushed(c, files))
  {
    if files != [] {
      PushingIsForOthers(f, c, files[..|files| - 1]);
    }
  }

  lemma {:induction false} NonEmptyMembers(files: seq<File>)
    ensures forall f :: f in NonEmpty(files) ==> f in files && f.entries != []
  {
    if files != [] {
      NonEmptyMembers(files[..|files| - 1]);
    }
  }

  lemma {:induction false} KeptMembers(page: seq<File>, w: Window, c: Cursor)
    ensures forall f :: f in Kept(page, w, c) ==> f in page && Before(f, w.until) && !DoneAtBoundary(f, c)
  {
    if page != [] {
      KeptMembers(page[..|page| - 1], w, c);
    }
  }

  lemma {:induction false} SameIdSameFile(table: seq<File>, f: File, g: File)
    requires Frozen(table) && f in table && g in table && f.id == g.id
    ensures f == g
  {
  }

  lemma {:induction false} ListingMembers(table: seq<File>, since: int, pageSize: nat)
    requires Frozen(table)
    ensures forall f :: f in Listing(table, since, pageSize) ==> f in table && f.created >= since
  {
    var m := PageIsSlice(table, since, pageSize);
  }

  /** What a turn pushes leaves the empty files of the table undone. */
  lemma {:induction false} EmptyStaysUndone(table: seq<File>, w: Window, pageSize: nat, since: int, c: Cursor, f: File)
    requires Frozen(table) && f in table && UndoneEmpty(f, c)
    ensures UndoneEmpty(f, TurnOf(table, w, pageSize, since, c).c)
  {
    var page := Listing(table, since, pageSize);
    var part := NonEmpty(Kept(page, w, c));
    NonEmptyMembers(Kept(page, w, c));
    KeptMembers(page, w, c);
    ListingMembers(table, since, pageSize);
    forall i | 0 <= i < |part|
      ensures part[i].id != f.id
    {
      assert part[i] in part;
      if part[i].id == f.id {
        SameIdSameFile(table, part[i], f);
      }
    }
    PushingIsForOthers(f, c, part);
  }

  // ----- the run that never ends -----

  /** Ahead of the run lies a crowded date with an undone empty file, and no crowded date before it. */
  ghost predicate Doomed(table: seq<File>, w: Window, pageSize: nat, since: int, c: Cursor, d: int, f: File) {
    && Frozen(table) && FirstCrowded(table, pageSize, since, d) && DateBefore(d, w.until)
    && f in Listing(table, d, pageSize) && UndoneEmpty(f, c)
  }

  /** Every turn leads to another, and once at the date the run stays there. */
  lemma {:induction false} TurnTowardsCrowd(table: seq<File>, w: Window, pageSize: nat, since: int, c: Cursor, d: int, f: File, t: Turn)
    requires Doomed(table, w, pageSize, since, c, d, f) && t == TurnOf(table, w, pageSize, since, c)
    ensures t.More? && Doomed(table, w, pageSize, t.since, t.c, d, f) && (since == d ==> t.since == d)
  {
    CrowdStops(table, pageSize, since, d);
    CrowdShares(table, pageSize, d);
    var page := Listing(table, since, pageSize);
    EmptyStaysUndone(table, w, pageSize, since, c, f);
    if since == d {
      var i :| 0 <= i < |page| && page[i] == f;
      KeptHas(page, w, c, i);
    } else {
      assert !CrowdedAt(table, pageSize, since);
      ListingMembers(table, since, pageSize);
      assert page[pageSize - 1] in page;
    }
  }

  ghost function Doom(table: seq<File>, w: Window, pageSize: nat, d: int, f: File): (int, Cursor) -> bool {
    (s, e) => Doomed(table, w, pageSize, s, e, d, f)
  }

  lemma {:induction false} DoomIsTrap(table: seq<File>, w: Window, pageSize: nat, d: int, f: File)
    ensures Trap(Turning(table, w, pageSize), Doom(table, w, pageSize, d, f), d)
  {
    var turn, bad := Turning(table, w, pageSize), Doom(table, w, pageSize, d, f);
    forall s, e | bad(s, e)
      ensures turn(s, e).More? && bad(turn(s, e).since, turn(s, e).c) && (s == d ==> turn(s, e).since == d)
    {
      TurnTowardsCrowd(table, w, pageSize, s, e, d, f, turn(s, e));
    }
  }

  lemma {:induction false} NeverEnds(table: seq<File>, w: Window, pageSize: nat, since: int, c: Cursor, d: int, f: File, k: nat)
    requires Doomed(table, w, pageSize, since, c, d, f)
    ensures RunOf(table, w, pageSize, since, c, k).More?
    ensures since == d ==> RunOf(table, w, pageSize, since, c, k).since == d
  {
    DoomIsTrap(table, w, pageSize, d, f);
    TurnsForever(Turning(table, w, pageSize), Doom(table, w, pageSize, d, f), since, c, d, k);
  }

  // ----- the run that ends -----

  /** What a full page leads to: a later date, or the same date if it is crowded. */
  lemma {:induction false} FullPage(table: seq<File>, pageSize: nat, since: int)
    requires Frozen(table) && pageSize > 0 && |Listing(table, since, pageSize)| == pageSize
    ensures var next := Listing(table, since, pageSize)[pageSize - 1].created;
            && since <= next && (next == since <==> CrowdedAt(table, pageSize, since))
            && (next > since ==> |From(table, next + 1)| < |From(table, since + 1)|)
  {
    var j := LastOfPage(table, pageSize, since);
    FewerAfter(table, since, j);
  }

  lemma {:induction false} LastOfPage(table: seq<File>, pageSize: nat, since: int) returns (j: nat)
    requires Frozen(table) && pageSize > 0 && |Listing(table, since, pageSize)| == pageSize
    ensures j < |table| && Listing(table, since, pageSize)[pageSize - 1] == table[j] && table[j].created >= since
  {
    var m := PageIsSlice(table, since, pageSize);
    j := m + pageSize - 1;
  }

  /** Fewer files come after a later file's date. */
  lemma {:induction false} FewerAfter(table: seq<File>, since: int, j: nat)
    requires Frozen(table) && j < |table|
    ensures table[j].created > since ==> |From(table, table[j].created + 1)| < |From(table, since + 1)|
  {
    var a := FromIsSuffix(table, since + 1);
    var b := FromIsSuffix(table, table[j].created + 1);
    assert j < b;
    assert table[j].created > since ==> a <= j;
  }

  /** Crowded dates beyond the next listing are those beyond this one. */
  lemma {:induction false} SameCrowd(table: seq<File>, pageSize: nat, since: int, d: int)
    requires Frozen(table) && pageSize > 0 && |Listing(table, since, pageSize)| == pageSize
    requires var next := Listing(table, since, pageSize)[pageSize - 1].created; since < next && FirstCrowded(table, pageSize, next, d)
    ensures FirstCrowded(table, pageSize, since, d)
  {
    forall e | since <= e < d
      ensures !CrowdedAt(table, pageSize, e)
    {
      if CrowdedAt(table, pageSize, e) {
        CrowdStops(table, pageSize, since, e);
      }
    }
  }

  lemma {:induction false} AllKept(page: seq<File>, w: Window, c: Cursor)
    requires forall i :: 0 <= i < |page| ==> !UndoneEmpty(page[i], c)
    ensures NonEmpty(Kept(page, w, c)) == Kept(page, w, c)
  {
    if page != [] {
      AllKept(page[..|page| - 1], w, c);
      var kept := Kept(page[..|page| - 1], w, c);
      var last := page[|page| - 1];
      assert (kept + [last])[..|kept|] == kept;
      if !(Before(last, w.until) && !DoneAtBoundary(last, c)) {
        assert Kept(page, w, c) == kept;
      }
    }
  }

  lemma {:induction false} KeptNothing(page: seq<File>, w: Window, c: Cursor)
    requires forall i :: 0 <= i < |page| ==> DoneAtBoundary(page[i], c) || !Before(page[i], w.until)
    ensures Kept(page, w, c) == []
  {
    if page != [] {
      KeptNothing(page[..|page| - 1], w, c);
    }
  }

  /** Files pushed at the cursor's date, and those done before at that date, are done. */
  lemma {:induction false} PushedAreDone(c: Cursor, files: seq<File>, d: int, f: File)
    requires (forall i :: 0 <= i < |files| ==> files[i].created == d) && f.created == d
    requires f in files || (c.last == Some(d) && f.id in c.done)
    ensures DoneAtBoundary(f, Pushed(c, files))
  {
    if files != [] {
      var front, last := files[..|files| - 1], files[|files| - 1];
      assert files == front + [last];
      if f in front || (c.last == Some(d) && f.id in c.done) {
        PushedAreDone(c, front, d, f);
      }
    }
  }

  /** A crowded page without undone empty files is done after one turn. */
  lemma {:induction false} CrowdIsDone(table: seq<File>, w: Window, pageSize: nat, d: int, c: Cursor)
    requires Frozen(table) && CrowdedAt(table, pageSize, d) && !HasUndoneEmpty(Listing(table, d, pageSize), c)
    ensures var page := Listing(table, d, pageSize); Kept(page, w, Pushed(c, NonEmpty(Kept(page, w, c)))) == []
  {
    var page := Listing(table, d, pageSize);
    CrowdShares(table, pageSize, d);
    AllKept(page, w, c);
    KeptMembers(page, w, c);
    var files := Kept(page, w, c);
    assert forall i :: 0 <= i < |files| ==> files[i] in files;
    forall i | 0 <= i < |page|
      ensures DoneAtBoundary(page[i], Pushed(c, files)) || !Before(page[i], w.until)
    {
      if Before(page[i], w.until) {
        if !DoneAtBoundary(page[i], c) {
          KeptHas(page, w, c, i);
        }
        PushedAreDone(c, files, d, page[i]);
      }
    }
    KeptNothing(page, w, Pushed(c, files));
  }

  /** At a crowded date without undone empty files the run ends within two turns. */
  lemma {:induction false} CrowdEnds(table: seq<File>, w: Window, pageSize: nat, d: int, c: Cursor)
    requires Frozen(table) && CrowdedAt(table, pageSize, d) && !HasUndoneEmpty(Listing(table, d, pageSize), c)
    ensures RunOf(table, w, pageSize, d, c, 2).Over?
  {
    var t := TurnOf(table, w, pageSize, d, c);
    RunFirst(table, w, pageSize, d, c, 2);
    if t.More? {
      CrowdIsDone(table, w, pageSize, d, c);
      RunFirst(table, w, pageSize, d, t.c, 1);
    }
  }

  /** A later date's files are not done at a cursor that is not there yet. */
  lemma {:induction false} NotStuckNext(table: seq<File>, w: Window, pageSize: nat, since: int, c: Cursor)
    requires Frozen(table) && pageSize > 0 && Low(w, c) <= since && !Stuck(table, w, pageSize, since, c)
    requires var t := TurnOf(table, w, pageSize, since, c); t.More? && t.since > since
    ensures var t := TurnOf(table, w, pageSize, since, c); !Stuck(table, w, pageSize, t.since, t.c)
  {
    var t := TurnOf(table, w, pageSize, since, c);
    forall d | FirstCrowded(table, pageSize, t.since, d) && DateBefore(d, w.until)
      ensures !HasUndoneEmpty(Listing(table, d, pageSize), t.c)
    {
      SameCrowd(table, pageSize, since, d);
      CrowdShares(table, pageSize, d);
      NoneDoneYet(w, c, since, Listing(table, d, pageSize), d);
    }
  }

  /** At a date beyond the cursor nothing is done, so a page without undone empty files has no empty file. */
  lemma {:induction false} NoneDoneYet(w: Window, c: Cursor, since: int, page: seq<File>, d: int)
    requires Low(w, c) <= since < d && !HasUndoneEmpty(page, c) && forall i :: 0 <= i < |page| ==> page[i].created == d
    ensures forall other :: !HasUndoneEmpty(page, other)
  {
    forall i | 0 <= i < |page|
      ensures page[i].entries != []
    {
      assert !UndoneEmpty(page[i], c);
    }
  }

  lemma {:induction false} TurnLow(table: seq<File>, w: Window, pageSize: nat, since: int, c: Cursor)
    requires Frozen(table) && pageSize > 0 && Low(w, c) <= since && TurnOf(table, w, pageSize, since, c).More?
    ensures Low(w, TurnOf(table, w, pageSize, since, c).c) <= TurnOf(table, w, pageSize, since, c).since
  {
    var page := Listing(table, since, pageSize);
    var before, rest := PageParts(table, since, pageSize);
    KeptIsTodo(page, w, c);
    PageLow(w, c, page, rest);
  }

  lemma {:induction false} EndsUnlessStuck(table: seq<File>, w: Window, pageSize: nat, since: int, c: Cursor) returns (k: nat)
    requires Frozen(table) && Low(w, c) <= since && !Stuck(table, w, pageSize, since, c)
    ensures RunOf(table, w, pageSize, since, c, k).Over?
    decreases |From(table, since + 1)|
  {
    var t := TurnOf(table, w, pageSize, since, c);
    if t.Over? {
      k := 1;
      RunFirst(table, w, pageSize, since, c, 1);
    } else {
      FullPage(table, pageSize, since);
      if t.since == since {
        CrowdInWindow(table, w, pageSize, since, c);
        CrowdEnds(table, w, pageSize, since, c);
        k := 2;
      } else {
        NotStuckNext(table, w, pageSize, since, c);
        TurnLow(table, w, pageSize, since, c);
        k := EndsUnlessStuck(table, w, pageSize, t.since, t.c);
        k := k + 1;
        RunFirst(table, w, pageSize, since, c, k);
      }
    }
  }

  lemma {:induction false} CrowdInWindow(table: seq<File>, w: Window, pageSize: nat, since: int, c: Cursor)
    requires Frozen(table) && CrowdedAt(table, pageSize, since) && TurnOf(table, w, pageSize, since, c).More?
    requires !Stuck(table, w, pageSize, since, c)
    ensures !HasUndoneEmpty(Listing(table, since, pageSize), c)
  {
    CrowdShares(table, pageSize, since);
    assert FirstCrowded(table, pageSize, since, since);
    assert Before(Listing(table, since, pageSize)[0], w.until);
  }

  /**
   Exactly when an uninterrupted backfill ends: unless the first date in the window that a page or more of files share
   has, in its first page, an empty file that the cursor does not mark as done.
   */
  lemma {:induction false} EndsExactly(table: seq<File>, w: Window, pageSize: nat, start: Cursor)
    requires Frozen(table)
    ensures Ends(table, w, pageSize, Low(w, start), start) <==> !Stuck(table, w, pageSize, Low(w, start), start)
  {
    var low := Low(w, start);
    if Stuck(table, w, pageSize, low, start) {
      var d :| FirstCrowded(table, pageSize, low, d) && DateBefore(d, w.until) && HasUndoneEmpty(Listing(table, d, pageSize), start);
      var page := Listing(table, d, pageSize);
      var i :| 0 <= i < |page| && UndoneEmpty(page[i], start);
      forall k: nat
        ensures RunOf(table, w, pageSize, low, start, k).More?
      {
        NeverEnds(table, w, pageSize, low, start, d, page[i], k);
      }
    } else {
      var k := EndsUnlessStuck(table, w, pageSize, low, start);
    }
  }

  /** From a crowded date with an undone empty file every turn lists the same date again, for every number of turns. */
  lemma {:induction false} CrowdedDateRepeats(table: seq<File>, w: Window, pageSize: nat, d: int, c: Cursor, f: File, k: nat)
    requires Frozen(table) && CrowdedAt(table, pageSize, d) && DateBefore(d, w.until)
    requires f in Listing(table, d, pageSize) && UndoneEmpty(f, c)
    ensures var t := RunOf(table, w, pageSize, d, c, k); t.More? && t.since == d
  {
    NeverEnds(table, w, pageSize, d, c, d, f, k);
  }

  /** Two files of one date, one of them empty, and pages of two: the backfill never ends. */
  lemma {:induction false} TwoFilesNeverEnd(k: nat)
    ensures var table := [File(0, 1, [10]), File(0, 2, [])];
            RunOf(table, Window(0, None), 2, 0, Cursor(None, []), k).More?
  {
    var table := [File(0, 1, [10]), File(0, 2, [])];
    assert Frozen(table);
    FromAll(table, 0);
    assert Listing(table, 0, 2)[1] == table[1];
    CrowdedDateRepeats(table, Window(0, None), 2, 0, Cursor(None, []), table[1], k);
  }

  // ----- what has been pushed -----

  /** The files created before a date. */
  function Earlier(table: seq<File>, since: int): seq<File> {
    if table == [] then []
    else Earlier(table[..|table| - 1], since) + (if table[|table| - 1].created < since then [table[|table| - 1]] else [])
  }

  /** The files before a date and the first page at or after it. */
  function UpTo(table: seq<File>, since: int, pageSize: nat): seq<File> {
    Earlier(table, since) + Listing(table, since, pageSize)
  }

  lemma {:induction false} EarlierIsPrefix(table: seq<File>, since: int, m: nat)
    requires Cut(table, since, m)
    ensures Earlier(table, since) == table[..m]
  {
    if table != [] {
      var front := table[..|table| - 1];
      if m == |table| {
        EarlierIsPrefix(front, since, m - 1);
        assert table[..m] == front[..m - 1] + [table[m - 1]];
      } else {
        EarlierIsPrefix(front, since, m);
        assert table[..m] == front[..m];
      }
    }
  }

  lemma {:induction false} UpToIsPrefix(table: seq<File>, since: int, pageSize: nat) returns (n: nat)
    requires Frozen(table)
    ensures n <= |table| && UpTo(table, since, pageSize) == table[..n]
    ensures exists m: nat :: Cut(table, since, m) && n == m + |Listing(table, since, pageSize)|
    ensures |Listing(table, since, pageSize)| < pageSize ==> n == |table|
  {
    var m := PageIsSlice(table, since, pageSize);
    EarlierIsPrefix(table, since, m);
    n := m + |Listing(table, since, pageSize)|;
    assert table[..n] == table[..m] + table[m..n];
  }

  /** Going on from the last date of a full page covers at least as much. */
  lemma {:induction false} UpToGrows(table: seq<File>, since: int, pageSize: nat)
    requires Frozen(table) && pageSize > 0 && |Listing(table, since, pageSize)| == pageSize
    ensures var next := Listing(table, since, pageSize)[pageSize - 1].created;
            forall f :: f in UpTo(table, since, pageSize) ==> f in UpTo(table, next, pageSize)
  {
    var page := Listing(table, since, pageSize);
    var next := page[pageSize - 1].created;
    FullPage(table, pageSize, since);
    var a := UpToIsPrefix(table, since, pageSize);
    var b := UpToIsPrefix(table, next, pageSize);
    var m: nat :| Cut(table, since, m) && a == m + pageSize;
    var k: nat :| Cut(table, next, k) && b == k + |Listing(table, next, pageSize)|;
    CutsInOrder(table, since, m, next, k);
    assert a <= b;
    assert table[..a] <= table[..b];
  }

  /** The run so far, between two listings. */
  ghost predicate Track(table: seq<File>, w: Window, pageSize: nat, start: Cursor, pushed: seq<File>, c: Cursor, since: int) {
    && OnTrack(table, w, start, Todo(table, w, start), pushed, c)
    && Ahead(table, w, c, since)
    && (forall f :: f in pushed ==> f in UpTo(table, since, pageSize))
    && (forall e :: Low(w, start) <= e < since ==> !CrowdedAt(table, pageSize, e))
    && Low(w, start) <= since
    && (pageSize == 0 ==> pushed == [])
  }

  /** What a run has done when it ends. */
  ghost predicate Progressed(table: seq<File>, w: Window, pageSize: nat, start: Cursor, pushed: seq<File>, c: Cursor, end: End) {
    && pushed <= Todo(table, w, start)
    && c == Pushed(start, pushed)
    && (end.Complete? ==> pushed == if pageSize > 0 then Todo(table, w, start) else [])
    && (end.Crowded? ==> exists d ::
          && FirstCrowded(table, pageSize, Low(w, start), d) && DateBefore(d, w.until)
          && pushed == Todo(UpTo(table, d, pageSize), w, start))
  }

  lemma {:induction false} StartsOnTrack(table: seq<File>, w: Window, pageSize: nat, start: Cursor)
    ensures Track(table, w, pageSize, start, [], start, Low(w, start))
  {
  }

  /** A turn pushes the next of the wanted files. */
  lemma {:induction false} TurnPushes(table: seq<File>, w: Window, pageSize: nat, start: Cursor, pushed: seq<File>, c: Cursor, since: int)
    requires Frozen(table) && Track(table, w, pageSize, start, pushed, c, since)
    ensures var t := TurnOf(table, w, pageSize, since, c);
            && OnTrack(table, w, start, Todo(table, w, start), pushed + t.pushed, t.c)
            && (t.Over? && t.end.Complete? && pageSize > 0 ==> Todo(table, w, t.c) == [])
            && (t.More? ==> Ahead(table, w, t.c, t.since))
  {
    var page := Listing(table, since, pageSize);
    var before, rest := PageParts(table, since, pageSize);
    if page == [] || !Before(page[0], w.until) {
      if pageSize > 0 {
        NothingLeft(table, w, c, since, before, page, rest);
      }
      assert pushed + [] == pushed;
    } else {
      var part := NonEmpty(Kept(page, w, c));
      PartOfPage(table, w, start, Todo(table, w, start), pushed, c, since, before, page, rest, part);
      WholePage(table, w, c, since, before, page, rest);
      TurnOfPage(page, w, pageSize, since, c);
    }
  }

  lemma {:induction false} TurnOfPage(page: seq<File>, w: Window, pageSize: nat, since: int, c: Cursor)
    requires page != [] && Before(page[0], w.until)
    ensures var t, part := TurnOn(page, w, pageSize, since, c), NonEmpty(Kept(page, w, c));
            && t.pushed == part && t.c == Pushed(c, part)
            && (t.More? ==> t.since == page[|page| - 1].created)
            && (t.Over? && t.end.Complete? ==> |page| < pageSize)
  {
  }

  lemma {:induction false} TurnStaysUpTo(table: seq<File>, w: Window, pageSize: nat, since: int, c: Cursor, pushed: seq<File>)
    requires Frozen(table) && forall f :: f in pushed ==> f in UpTo(table, since, pageSize)
    ensures var t := TurnOf(table, w, pageSize, since, c);
            forall f :: f in pushed + t.pushed ==> f in UpTo(table, since, pageSize)
  {
    var page := Listing(table, since, pageSize);
    NonEmptyMembers(Kept(page, w, c));
    KeptMembers(page, w, c);
  }

  /** No date before the next listing is crowded. */
  lemma {:induction false} TurnPassesNoCrowd(table: seq<File>, w: Window, pageSize: nat, since: int, c: Cursor, e: int)
    requires Frozen(table) && since <= e && CrowdedAt(table, pageSize, e) && TurnOf(table, w, pageSize, since, c).More?
    ensures TurnOf(table, w, pageSize, since, c).since <= e
  {
    CrowdStops(table, pageSize, since, e);
  }

  lemma {:induction false} TurnKeepsTrack(table: seq<File>, w: Window, pageSize: nat, start: Cursor, pushed: seq<File>, c: Cursor, since: int)
    requires Frozen(table) && Track(table, w, pageSize, start, pushed, c, since)
    requires TurnOf(table, w, pageSize, since, c).More?
    ensures var t := TurnOf(table, w, pageSize, since, c); Track(table, w, pageSize, start, pushed + t.pushed, t.c, t.since)
  {
    var t := TurnOf(table, w, pageSize, since, c);
    TurnPushes(table, w, pageSize, start, pushed, c, since);
    TurnStaysUpTo(table, w, pageSize, since, c, pushed);
    UpToGrows(table, since, pageSize);
    FullPage(table, pageSize, since);
    forall e | Low(w, start) <= e < t.since
      ensures !CrowdedAt(table, pageSize, e)
    {
      if since <= e && CrowdedAt(table, pageSize, e) {
        TurnPassesNoCrowd(table, w, pageSize, since, c, e);
      }
    }
  }

  /** Two prefixes of the wanted files that agree on which part of the table they cover are the same. */
  lemma {:induction false} SamePrefix(table: seq<File>, n: nat, w: Window, start: Cursor, pushed: seq<File>)
    requires Frozen(table) && n <= |table| && pushed <= Todo(table, w, start)
    requires forall f :: f in pushed ==> f in table[..n]
    requires forall f :: f in Todo(table, w, start)[|pushed|..] ==> f in table[n..]
    ensures pushed == Todo(table[..n], w, start)
  {
    var all, part, rest := Todo(table, w, start), Todo(table[..n], w, start), Todo(table[n..], w, start);
    assert table == table[..n] + table[n..];
    TodoConcat(table[..n], table[n..], w, start);
    TodoMembers(table[..n], w, start);
    TodoMembers(table[n..], w, start);
    if |pushed| < |part| {
      var f := all[|pushed|];
      assert f == part[|pushed|] && f == all[|pushed|..][0];
      Apart(table, n, f);
    } else if |part| < |pushed| {
      var f := all[|part|];
      assert f == rest[0] && f == pushed[|part|];
      Apart(table, n, f);
    }
  }

  lemma {:induction false} Apart(table: seq<File>, n: nat, f: File)
    requires Frozen(table) && n <= |table|
    ensures !(f in table[..n] && f in table[n..])
  {
    if f in table[..n] {
      var i :| 0 <= i < n && table[i] == f;
      forall j | n <= j < |table|
        ensures table[j] != f
      {
        assert table[i].id != table[j].id;
      }
    }
  }

  lemma {:induction false} CrowdedPage(page: seq<File>, w: Window, pageSize: nat, since: int, c: Cursor)
    requires TurnOn(page, w, pageSize, since, c) == Over(Crowded, c, [])
    ensures page != [] && |page| >= pageSize && Before(page[0], w.until) && page[|page| - 1].created == since && Kept(page, w, c) == []
  {
  }

  /** A run gives up only on a crowded date inside the window. */
  lemma {:induction false} GivesUpOnCrowd(table: seq<File>, w: Window, pageSize: nat, c: Cursor, since: int)
    requires Frozen(table) && TurnOf(table, w, pageSize, since, c) == Over(Crowded, c, [])
    ensures CrowdedAt(table, pageSize, since) && DateBefore(since, w.until)
  {
    CrowdedPage(Listing(table, since, pageSize), w, pageSize, since, c);
    FullPage(table, pageSize, since);
    CrowdShares(table, pageSize, since);
  }

  /** When it gives up on a crowded date, the run has pushed what is wanted before the date and in its first page. */
  lemma {:induction false} CrowdedPushes(table: seq<File>, w: Window, pageSize: nat, start: Cursor, pushed: seq<File>, c: Cursor, since: int)
    requires Frozen(table) && Track(table, w, pageSize, start, pushed, c, since)
    requires TurnOf(table, w, pageSize, since, c) == Over(Crowded, c, [])
    ensures FirstCrowded(table, pageSize, Low(w, start), since) && DateBefore(since, w.until)
    ensures pushed == Todo(UpTo(table, since, pageSize), w, start)
  {
    GivesUpOnCrowd(table, w, pageSize, c, since);
    CrowdedPage(Listing(table, since, pageSize), w, pageSize, since, c);
    var n := LeftIsBeyond(table, w, pageSize, c, since);
    SamePrefix(table, n, w, start, pushed);
  }

  /** With nothing wanted in the page, what is left to push lies beyond it. */
  lemma {:induction false} LeftIsBeyond(table: seq<File>, w: Window, pageSize: nat, c: Cursor, since: int) returns (n: nat)
    requires Frozen(table) && Ahead(table, w, c, since) && Listing(table, since, pageSize) != [] && Kept(Listing(table, since, pageSize), w, c) == []
    ensures n <= |table| && UpTo(table, since, pageSize) == table[..n]
    ensures forall f :: f in Todo(table, w, c) ==> f in table[n..]
  {
    var before, rest := PageParts(table, since, pageSize);
    var page := Listing(table, since, pageSize);
    PageIsNext(table, w, c, since, before, page, rest);
    n := UpToIsPrefix(table, since, pageSize);
    var m: nat :| Cut(table, since, m) && n == m + |page|;
    RestIsSuffix(table, since, before, page, rest, m);
    TodoMembers(rest, w, c);
  }

  lemma {:induction false} RestIsSuffix(table: seq<File>, since: int, before: seq<File>, page: seq<File>, rest: seq<File>, m: nat)
    requires Parts(table, since, before, page, rest) && Cut(table, since, m) && page != []
    ensures m + |page| <= |table| && rest == table[m + |page|..]
  {
    assert table[|before|] == page[0];
    assert |before| > 0 ==> table[|before| - 1] == before[|before| - 1];
    assert m == |before|;
  }

  /** Turns that keep `track` and end in `done`. */
  ghost predicate Leads(turn: (int, Cursor) -> Turn, track: (seq<File>, Cursor, int) -> bool, done: (seq<File>, Cursor, End) -> bool) {
    forall p, c, s {:trigger track(p, c, s), turn(s, c)} :: track(p, c, s) ==>
      var t := turn(s, c); if t.More? then track(p + t.pushed, t.c, t.since) else done(p + t.pushed, t.c, t.end)
  }

  lemma {:induction false} TurnsLead(turn: (int, Cursor) -> Turn, track: (seq<File>, Cursor, int) -> bool, done: (seq<File>, Cursor, End) -> bool,
                                     pushed: seq<File>, c: Cursor, since: int, k: nat)
    requires Leads(turn, track, done) && track(pushed, c, since) && Turns(turn, since, c, k).Over?
    ensures var t := Turns(turn, since, c, k); done(pushed + t.pushed, t.c, t.end)
    decreases k
  {
    var t := turn(since, c);
    if t.More? {
      TurnsLead(turn, track, done, pushed + t.pushed, t.c, t.since, k - 1);
      var rest := Turns(turn, t.since, t.c, k - 1);
      assert pushed + (t.pushed + rest.pushed) == pushed + t.pushed + rest.pushed;
    }
  }

  ghost function Tracking(table: seq<File>, w: Window, pageSize: nat, start: Cursor): (seq<File>, Cursor, int) -> bool {
    (p, c, s) => Track(table, w, pageSize, start, p, c, s)
  }

  ghost function Progress(table: seq<File>, w: Window, pageSize: nat, start: Cursor): (seq<File>, Cursor, End) -> bool {
    (p, c, e) => Progressed(table, w, pageSize, start, p, c, e)
  }

  lemma {:induction false} TrackLeads(table: seq<File>, w: Window, pageSize: nat, start: Cursor)
    requires Frozen(table)
    ensures Leads(Turning(table, w, pageSize), Tracking(table, w, pageSize, start), Progress(table, w, pageSize, start))
  {
    var turn := Turning(table, w, pageSize);
    forall p, c, s | Tracking(table, w, pageSize, start)(p, c, s)
      ensures var t := turn(s, c);
              if t.More? then Tracking(table, w, pageSize, start)(p + t.pushed, t.c, t.since)
              else Progress(table, w, pageSize, start)(p + t.pushed, t.c, t.end)
    {
      if turn(s, c).More? {
        TurnKeepsTrack(table, w, pageSize, start, p, c, s);
      } else {
        OverIsProgress(table, w, pageSize, start, p, c, s);
      }
    }
  }

  /** What an uninterrupted run that ends has pushed: everything wanted, or all up to the first page of a crowded date. */
  lemma {:induction false} RunPushes(table: seq<File>, w: Window, pageSize: nat, start: Cursor, k: nat)
    requires Frozen(table) && RunOf(table, w, pageSize, Low(w, start), start, k).Over?
    ensures var t := RunOf(table, w, pageSize, Low(w, start), start, k); Progressed(table, w, pageSize, start, t.pushed, t.c, t.end)
  {
    StartsOnTrack(table, w, pageSize, start);
    TrackLeads(table, w, pageSize, start);
    TurnsLead(Turning(table, w, pageSize), Tracking(table, w, pageSize, start), Progress(table, w, pageSize, start),
              [], start, Low(w, start), k);
    var t := RunOf(table, w, pageSize, Low(w, start), start, k);
    assert [] + t.pushed == t.pushed;
  }

  lemma {:induction false} OverIsProgress(table: seq<File>, w: Window, pageSize: nat, start: Cursor, pushed: seq<File>, c: Cursor, since: int)
    requires Frozen(table) && Track(table, w, pageSize, start, pushed, c, since)
    requires TurnOf(table, w, pageSize, since, c).Over?
    ensures var t := TurnOf(table, w, pageSize, since, c); Progressed(table, w, pageSize, start, pushed + t.pushed, t.c, t.end)
  {
    var t := TurnOf(table, w, pageSize, since, c);
    TurnPushes(table, w, pageSize, start, pushed, c, since);
    if t.end.Crowded? {
      assert t == Over(Crowded, c, []) && pushed + [] == pushed;
      CrowdedPushes(table, w, pageSize, start, pushed, c, since);
    }
  }

  // ----- the loop -----

  /** A turn interrupted by a failed download or push: the first files of the page are pushed. */
  predicate CutShort(table: seq<File>, w: Window, pageSize: nat, since: int, c: Cursor, t: Turn) {
    && t.Over? && (t.end.Interrupted? || t.end.Aborted?)
    && t.pushed <= NonEmpty(Kept(Listing(table, since, pageSize), w, c))
    && t.c == Pushed(c, t.pushed)
  }

  /** A download or a push of one of the files fails. */
  ghost predicate FailsIn(files: seq<File>, badDownload: File -> bool, aborts: File -> bool) {
    exists i :: 0 <= i < |files| && (badDownload(files[i]) || aborts(files[i]))
  }

  /** One turn of the listing loop, after a successful listing; only a failed download or push interrupts it. */
  method ProcessPage(table: seq<File>, w: Window, pageSize: nat, c: Cursor, since: int, badDownload: File -> bool, aborts: File -> bool)
    returns (t: Turn)
    ensures t == Turning(table, w, pageSize)(since, c)
            || (CutShort(table, w, pageSize, since, c, t) && FailsIn(Listing(table, since, pageSize), badDownload, aborts))
  {
    var page := Listing(table, since, pageSize);
    KeptMembers(page, w, c);
    assert forall f :: f in page ==> exists i :: 0 <= i < |page| && page[i] == f;
    if page == [] || !Before(page[0], w.until) {
      return Over(Complete, c, []);
    }
    var files := KeepFiles(page, w, c);
    var next := page[|page| - 1].created;
    var part, d, outcome := ProcessFiles(files, c, badDownload, aborts);
    if !outcome.Continue? {
      return Over(if outcome.AbortRun? then Aborted else Interrupted, d, part);
    }
    if |page| < pageSize {
      return Over(Complete, d, part);
    }
    if files == [] && next == since {
      return Over(Crowded, d, part);
    }
    t := More(next, d, part);
  }

  /** What interrupted turns, and failed listings, lead to. */
  ghost predicate CutsLead(table: seq<File>, w: Window, pageSize: nat, track: (seq<File>, Cursor, int) -> bool, done: (seq<File>, Cursor, End) -> bool) {
    && (forall p, c, s :: track(p, c, s) ==> done(p, c, Interrupted))
    && (forall p, c, s, t :: track(p, c, s) && CutShort(table, w, pageSize, s, c, t) ==> done(p + t.pushed, t.c, t.end))
  }

  /** `over` says within how many turns a run ends. */
  ghost predicate Counts(turn: (int, Cursor) -> Turn, over: (int, Cursor, nat) -> bool) {
    forall s, c, k: nat {:trigger over(s, c, k), turn(s, c)} ::
      over(s, c, k) && turn(s, c).More? ==> k > 0 && over(turn(s, c).since, turn(s, c).c, k - 1)
  }

  ghost function Within(turn: (int, Cursor) -> Turn): (int, Cursor, nat) -> bool {
    (s, c, k: nat) => Turns(turn, s, c, k).Over?
  }

  lemma {:induction false} WithinCounts(turn: (int, Cursor) -> Turn)
    ensures Counts(turn, Within(turn))
  {
  }

  /** The listing loop, for a run known to end after `k` turns if nothing fails. */
  method PageLoop(table: seq<File>, w: Window, pageSize: nat, start: Cursor, first: int, listFails: nat -> bool,
                  badDownload: File -> bool, aborts: File -> bool,
                  ghost track: (seq<File>, Cursor, int) -> bool, ghost done: (seq<File>, Cursor, End) -> bool,
                  ghost over: (int, Cursor, nat) -> bool, ghost k: nat)
    returns (pushed: seq<File>, c: Cursor, end: End)
    requires Leads(Turning(table, w, pageSize), track, done) && CutsLead(table, w, pageSize, track, done)
    requires Counts(Turning(table, w, pageSize), over) && track([], start, first) && over(first, start, k)
    ensures done(pushed, c, end)
    ensures end.Interrupted? || end.Aborted? ==>
              (exists i: nat :: listFails(i)) || (exists f :: badDownload(f) || aborts(f)) || TurnInterrupts(Turning(table, w, pageSize))
  {
    var since, queries: nat := first, 0;
    pushed, c := [], start;
    ghost var turn, left := Turning(table, w, pageSize), k;
    while true
      invariant track(pushed, c, since) && over(since, c, left)
      decreases left
    {
      if listFails(queries) {
        end := Interrupted;
        return;
      }
      queries := queries + 1;
      var t := ProcessPage(table, w, pageSize, c, since, badDownload, aborts);
      if t.Over? {
        OverLeads(table, w, pageSize, track, done, pushed, c, since, t);
        if t != turn(since, c) {
          SomeFails(Listing(table, since, pageSize), badDownload, aborts);
        }
        pushed, c, end := pushed + t.pushed, t.c, t.end;
        return;
      }
      MoreLeads(turn, track, done, over, pushed, c, since, left, t);
      pushed, c, since, left := pushed + t.pushed, t.c, t.since, left - 1;
    }
  }

  lemma {:induction false} SomeFails(files: seq<File>, badDownload: File -> bool, aborts: File -> bool)
    requires FailsIn(files, badDownload, aborts)
    ensures exists f :: badDownload(f) || aborts(f)
  {
  }

  lemma {:induction false} MoreLeads(turn: (int, Cursor) -> Turn, track: (seq<File>, Cursor, int) -> bool, done: (seq<File>, Cursor, End) -> bool,
                                     over: (int, Cursor, nat) -> bool, pushed: seq<File>, c: Cursor, since: int, k: nat, t: Turn)
    requires Leads(turn, track, done) && track(pushed, c, since) && Counts(turn, over) && over(since, c, k)
    requires t == turn(since, c) && t.More?
    ensures k > 0 && track(pushed + t.pushed, t.c, t.since) && over(t.since, t.c, k - 1)
  {
  }

  lemma {:induction false} OverLeads(table: seq<File>, w: Window, pageSize: nat, track: (seq<File>, Cursor, int) -> bool,
                                     done: (seq<File>, Cursor, End) -> bool, pushed: seq<File>, c: Cursor, since: int, t: Turn)
    requires Leads(Turning(table, w, pageSize), track, done) && CutsLead(table, w, pageSize, track, done) && track(pushed, c, since)
    requires t.Over? && (t == Turning(table, w, pageSize)(since, c) || CutShort(table, w, pageSize, since, c, t))
    ensures done(pushed + t.pushed, t.c, t.end)
  {
  }

  /** A turn without failures ends in one of the failure states. */
  ghost predicate TurnInterrupts(turn: (int, Cursor) -> Turn) {
    exists s, c :: turn(s, c).Over? && (turn(s, c).end.Interrupted? || turn(s, c).end.Aborted?)
  }

  lemma {:induction false} TurnsDoNotInterrupt(table: seq<File>, w: Window, pageSize: nat)
    ensures !TurnInterrupts(Turning(table, w, pageSize))
  {
  }

  lemma {:induction false} CutsAreProgress(table: seq<File>, w: Window, pageSize: nat, start: Cursor)
    requires Frozen(table)
    ensures CutsLead(table, w, pageSize, Tracking(table, w, pageSize, start), Progress(table, w, pageSize, start))
  {
    forall p, c, s | Tracking(table, w, pageSize, start)(p, c, s)
      ensures Progress(table, w, pageSize, start)(p, c, Interrupted)
    {
      TrackIsProgress(table, w, pageSize, start, p, c, s);
    }
    forall p, c, s, t | Tracking(table, w, pageSize, start)(p, c, s) && CutShort(table, w, pageSize, s, c, t)
      ensures Progress(table, w, pageSize, start)(p + t.pushed, t.c, t.end)
    {
      CutIsProgress(table, w, pageSize, start, p, c, s, t);
    }
  }

  lemma {:induction false} TrackIsProgress(table: seq<File>, w: Window, pageSize: nat, start: Cursor, pushed: seq<File>, c: Cursor, since: int)
    requires Track(table, w, pageSize, start, pushed, c, since)
    ensures Progressed(table, w, pageSize, start, pushed, c, Interrupted)
  {
  }

  lemma {:induction false} CutIsProgress(table: seq<File>, w: Window, pageSize: nat, start: Cursor, pushed: seq<File>, c: Cursor, since: int, t: Turn)
    requires Frozen(table) && Track(table, w, pageSize, start, pushed, c, since) && CutShort(table, w, pageSize, since, c, t)
    ensures Progressed(table, w, pageSize, start, pushed + t.pushed, t.c, t.end)
  {
    var before, rest := PageParts(table, since, pageSize);
    PartOfPage(table, w, start, Todo(table, w, start), pushed, c, since, before, Listing(table, since, pageSize), rest, t.pushed);
  }

  /**
   The backfill of one type, on every listing on which it ends. Uninterrupted it pushes each non-empty file of the
   window that the cursor does not mark as pushed exactly once and in order, or all of them up to the first page of the
   first crowded date; interrupted it has pushed the first of them.
   */
  method BackfillType(table: seq<File>, w: Window, pageSize: nat, start: Cursor, listFails: nat -> bool,
                      badDownload: File -> bool, aborts: File -> bool)
    returns (pushed: seq<File>, c: Cursor, end: End)
    requires Frozen(table) && !Stuck(table, w, pageSize, Low(w, start), start)
    ensures Progressed(table, w, pageSize, start, pushed, c, end)
    ensures end.Interrupted? || end.Aborted? ==> (exists i: nat :: listFails(i)) || exists f :: badDownload(f) || aborts(f)
  {
    ghost var k := EndsUnlessStuck(table, w, pageSize, Low(w, start), start);
    StartsOnTrack(table, w, pageSize, start);
    TrackLeads(table, w, pageSize, start);
    CutsAreProgress(table, w, pageSize, start);
    WithinCounts(Turning(table, w, pageSize));
    TurnsDoNotInterrupt(table, w, pageSize);
    pushed, c, end := PageLoop(table, w, pageSize, start, Low(w, start), listFails, badDownload, aborts,
                               Tracking(table, w, pageSize, start), Progress(table, w, pageSize, start),
                               Within(Turning(table, w, pageSize)), k);
  }
}
