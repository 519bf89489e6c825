/**
 Backfill of one event type (src/sf2loki/backfill.py): page through the files created in [since, until), push every
 non-empty one and advance a persisted cursor.

 The listing is frozen and sorted by (CreatedDate, id). A file is what is left of its rows after shaping and filtering;
 an entry is its line length.
 */
module Backfill {
  import opened Options

  datatype File = File(created: int, id: int, entries: seq<nat>)

  datatype Window = Window(since: int, until: Option<int>)

  /** The persisted cursor: the newest date pushed and the ids pushed at that date. */
  datatype Cursor = Cursor(last: Option<int>, done: seq<int>)

  // ----- chunks -----

  function Bytes(chunk: seq<nat>): nat {
    if chunk == [] then 0 else Bytes(chunk[..|chunk| - 1]) + chunk[|chunk| - 1]
  }

  function Flatten(chunks: seq<seq<nat>>): seq<nat> {
    if chunks == [] then [] else Flatten(chunks[..|chunks| - 1]) + chunks[|chunks| - 1]
  }

  /** A chunk that may be pushed: within both limits (0 means no limit), or a single entry too large for any chunk. */
  predicate Pushable(chunk: seq<nat>, maxEntries: nat, maxBytes: nat) {
    && chunk != []
    && (maxEntries > 0 ==> |chunk| <= maxEntries)
    && (maxBytes > 0 ==> Bytes(chunk) <= maxBytes || |chunk| == 1)
  }

  predicate AllPushable(chunks: seq<seq<nat>>, maxEntries: nat, maxBytes: nat) {
    forall i :: 0 <= i < |chunks| ==> Pushable(chunks[i], maxEntries, maxBytes)
  }

  lemma {:induction false} FlattenAppend(chunks: seq<seq<nat>>, chunk: seq<nat>)
    ensures Flatten(chunks + [chunk]) == Flatten(chunks) + chunk
  {
    assert (chunks + [chunk])[..|chunks|] == chunks;
  }

  lemma {:induction false} BytesAppend(chunk: seq<nat>, entry: nat)
    ensures Bytes(chunk + [entry]) == Bytes(chunk) + entry
  {
    assert (chunk + [entry])[..|chunk|] == chunk;
  }

  /** The greedy test: close the current chunk before this entry. */
  predicate MustClose(current: seq<nat>, entry: nat, maxEntries: nat, maxBytes: nat) {
    current != [] && ((maxEntries > 0 && |current| >= maxEntries) || (maxBytes > 0 && Bytes(current) + entry > maxBytes))
  }

  lemma {:induction false} EntryFits(current: seq<nat>, entry: nat, maxEntries: nat, maxBytes: nat)
    requires !MustClose(current, entry, maxEntries, maxBytes)
    ensures Pushable(current + [entry], maxEntries, maxBytes)
  {
    BytesAppend(current, entry);
  }

  /** What has been chunked so far: closed chunks and the current one. */
  predicate Chunked(chunks: seq<seq<nat>>, current: seq<nat>, entries: seq<nat>, maxEntries: nat, maxBytes: nat) {
    && Flatten(chunks) + current == entries
    && AllPushable(chunks, maxEntries, maxBytes)
    && (current != [] ==> Pushable(current, maxEntries, maxBytes))
  }

  lemma {:induction false} AddEntry(chunks: seq<seq<nat>>, current: seq<nat>, entries: seq<nat>, entry: nat, maxEntries: nat, maxBytes: nat)
    requires Chunked(chunks, current, entries, maxEntries, maxBytes) && !MustClose(current, entry, maxEntries, maxBytes)
    ensures Chunked(chunks, current + [entry], entries + [entry], maxEntries, maxBytes)
  {
    EntryFits(current, entry, maxEntries, maxBytes);
    assert Flatten(chunks) + (current + [entry]) == (Flatten(chunks) + current) + [entry];
  }

  lemma {:induction false} CloseChunk(chunks: seq<seq<nat>>, current: seq<nat>, entries: seq<nat>, maxEntries: nat, maxBytes: nat)
    requires Chunked(chunks, current, entries, maxEntries, maxBytes) && current != []
    ensures Chunked(chunks + [current], [], entries, maxEntries, maxBytes)
  {
    FlattenAppend(chunks, current);
  }

  lemma {:induction false} FirstOfChunk(chunks: seq<seq<nat>>, current: seq<nat>, entries: seq<nat>, entry: nat, maxEntries: nat, maxBytes: nat)
    requires Chunked(chunks, current, entries, maxEntries, maxBytes) && current != []
    ensures Chunked(chunks + [current], [entry], entries + [entry], maxEntries, maxBytes) && Bytes([entry]) == entry
  {
    CloseChunk(chunks, current, entries, maxEntries, maxBytes);
    AddEntry(chunks + [current], [], entries, entry, maxEntries, maxBytes);
    BytesAppend([], entry);
    assert [] + [entry] == [entry];
  }

  /** The chunk before the i-th could not have taken its first entry. */
  predicate FullBefore(chunks: seq<seq<nat>>, i: int, maxEntries: nat, maxBytes: nat) {
    0 < i < |chunks| && chunks[i] != [] && !Pushable(chunks[i - 1] + [chunks[i][0]], maxEntries, maxBytes)
  }

  /** No chunk could have taken the first entry of the next one. */
  predicate Greedy(chunks: seq<seq<nat>>, maxEntries: nat, maxBytes: nat) {
    forall i :: 0 < i < |chunks| ==> FullBefore(chunks, i, maxEntries, maxBytes)
  }

  /** The chunks with the current one, once it has an entry. */
  function WithCurrent(chunks: seq<seq<nat>>, current: seq<nat>): seq<seq<nat>> {
    if current == [] then chunks else chunks + [current]
  }

  lemma {:induction false} ClosingIsGreedy(chunks: seq<seq<nat>>, current: seq<nat>, entry: nat, maxEntries: nat, maxBytes: nat)
    requires Greedy(chunks + [current], maxEntries, maxBytes) && MustClose(current, entry, maxEntries, maxBytes)
    ensures Greedy(chunks + [current] + [[entry]], maxEntries, maxBytes)
  {
    BytesAppend(current, entry);
    var all, longer := chunks + [current], chunks + [current] + [[entry]];
    forall i | 0 < i < |longer|
      ensures FullBefore(longer, i, maxEntries, maxBytes)
    {
      assert i < |all| ==> FullBefore(all, i, maxEntries, maxBytes);
    }
  }

  lemma {:induction false} GrowingIsGreedy(chunks: seq<seq<nat>>, current: seq<nat>, entry: nat, maxEntries: nat, maxBytes: nat)
    requires Greedy(WithCurrent(chunks, current), maxEntries, maxBytes) && (current == [] ==> chunks == [])
    ensures Greedy(chunks + [current + [entry]], maxEntries, maxBytes)
  {
    var all, grown := chunks + [current], chunks + [current + [entry]];
    forall i | 0 < i < |grown|
      ensures FullBefore(grown, i, maxEntries, maxBytes)
    {
      assert FullBefore(all, i, maxEntries, maxBytes);
      assert grown[i - 1] == all[i - 1] && grown[i][0] == all[i][0];
    }
  }

  /** The loop so far: all entries placed, greedily. */
  predicate Placed(chunks: seq<seq<nat>>, current: seq<nat>, entries: seq<nat>, maxEntries: nat, maxBytes: nat) {
    && Chunked(chunks, current, entries, maxEntries, maxBytes)
    && Greedy(WithCurrent(chunks, current), maxEntries, maxBytes)
    && (current == [] ==> chunks == [])
  }

  /** Add one entry, closing the current chunk first if it would overflow. */
  method PlaceEntry(chunks: seq<seq<nat>>, current: seq<nat>, currentBytes: nat, entry: nat, maxEntries: nat, maxBytes: nat,
                    ghost done: seq<nat>)
    returns (chunks': seq<seq<nat>>, current': seq<nat>, currentBytes': nat)
    requires Placed(chunks, current, done, maxEntries, maxBytes) && currentBytes == Bytes(current)
    ensures Placed(chunks', current', done + [entry], maxEntries, maxBytes) && currentBytes' == Bytes(current')
    ensures if MustClose(current, entry, maxEntries, maxBytes) then chunks' == chunks + [current] && current' == [entry]
            else chunks' == chunks && current' == current + [entry]
  {
    var overCount := maxEntries > 0 && |current| >= maxEntries;
    var overBytes := maxBytes > 0 && current != [] && currentBytes + entry > maxBytes;
    if current != [] && (overCount || overBytes) {
      FirstOfChunk(chunks, current, done, entry, maxEntries, maxBytes);
      ClosingIsGreedy(chunks, current, entry, maxEntries, maxBytes);
      chunks', current', currentBytes' := chunks + [current], [entry], entry;
    } else {
      AddEntry(chunks, current, done, entry, maxEntries, maxBytes);
      GrowingIsGreedy(chunks, current, entry, maxEntries, maxBytes);
      BytesAppend(current, entry);
      chunks', current', currentBytes' := chunks, current + [entry], currentBytes + entry;
    }
  }

  /** The loop state: the closed chunks, the current one and its bytes. */
  datatype Chunking = Chunking(chunks: seq<seq<nat>>, current: seq<nat>, bytes: nat)

  /** The first `i` entries are placed. */
  predicate PlacedFirst(s: Chunking, entries: seq<nat>, i: nat, maxEntries: nat, maxBytes: nat) {
    i <= |entries| && Placed(s.chunks, s.current, entries[..i], maxEntries, maxBytes) && s.bytes == Bytes(s.current)
  }

  lemma {:induction false} PlacedNone(entries: seq<nat>, maxEntries: nat, maxBytes: nat)
    ensures PlacedFirst(Chunking([], [], 0), entries, 0, maxEntries, maxBytes)
  {
  }

  method PlaceNext(s: Chunking, entries: seq<nat>, i: nat, maxEntries: nat, maxBytes: nat) returns (t: Chunking)
    requires PlacedFirst(s, entries, i, maxEntries, maxBytes) && i < |entries|
    ensures PlacedFirst(t, entries, i + 1, maxEntries, maxBytes)
  {
    var chunks, current, bytes := PlaceEntry(s.chunks, s.current, s.bytes, entries[i], maxEntries, maxBytes, entries[..i]);
    assert entries[..i] + [entries[i]] == entries[..i + 1];
    t := Chunking(chunks, current, bytes);
  }

  method PlaceEntries(entries: seq<nat>, maxEntries: nat, maxBytes: nat) returns (s: Chunking)
    ensures Placed(s.chunks, s.current, entries, maxEntries, maxBytes)
  {
    s := Chunking([], [], 0);
    PlacedNone(entries, maxEntries, maxBytes);
    for i := 0 to |entries|
      invariant PlacedFirst(s, entries, i, maxEntries, maxBytes)
    {
      s := PlaceNext(s, entries, i, maxEntries, maxBytes);
    }
    assert entries[..|entries|] == entries;
  }

  /** Greedy chunks: together the entries in order, each within the limits unless it is one oversized entry, and none too short. */
  method ChunkEntries(entries: seq<nat>, maxEntries: nat, maxBytes: nat) returns (chunks: seq<seq<nat>>)
    ensures Flatten(chunks) == entries
    ensures AllPushable(chunks, maxEntries, maxBytes) && Greedy(chunks, maxEntries, maxBytes)
  {
    var s := PlaceEntries(entries, maxEntries, maxBytes);
    chunks := s.chunks;
    if s.current != [] {
      CloseChunk(s.chunks, s.current, entries, maxEntries, maxBytes);
      chunks := s.chunks + [s.current];
    }
  }

  // ----- the cursor -----

  /** Advance past a pushed file. */
  function Advance(c: Cursor, f: File): Cursor {
    if c.last == Some(f.created) then (if f.id in c.done then c else c.(done := c.done + [f.id]))
    else Cursor(Some(f.created), [f.id])
  }

  predicate DoneAtBoundary(f: File, c: Cursor) {
    c.last == Some(f.created) && f.id in c.done
  }

  function Low(w: Window, c: Cursor): int {
    if c.last.Some? then c.last.value else w.since
  }

  predicate Before(f: File, until: Option<int>) {
    until.Some? ==> f.created < until.value
  }

  /** A file still to be pushed. */
  predicate Wanted(f: File, w: Window, c: Cursor) {
    f.entries != [] && Low(w, c) <= f.created && Before(f, w.until) && !DoneAtBoundary(f, c)
  }

  /** The files still to be pushed, in order. */
  function Todo(table: seq<File>, w: Window, c: Cursor): seq<File> {
    if table == [] then []
    else (if Wanted(table[0], w, c) then [table[0]] else []) + Todo(table[1..], w, c)
  }

  predicate After(f: File, g: File) {
    f.created > g.created || (f.created == g.created && f.id > g.id)
  }

  /** A frozen listing: sorted by (CreatedDate, id), ids unique. */
  predicate Frozen(table: seq<File>) {
    && (forall i, j :: 0 <= i < j < |table| ==> After(table[j], table[i]))
    && (forall i, j :: 0 <= i < j < |table| ==> table[i].id != table[j].id)
  }

  lemma {:induction false} TodoConcat(a: seq<File>, b: seq<File>, w: Window, c: Cursor)
    ensures Todo(a + b, w, c) == Todo(a, w, c) + Todo(b, w, c)
  {
    if a == [] {
      assert a + b == b;
    } else {
      TodoConcat(a[1..], b, w, c);
      assert (a + b)[1..] == a[1..] + b && (a + b)[0] == a[0];
      var head := if Wanted(a[0], w, c) then [a[0]] else [];
      assert head + (Todo(a[1..], w, c) + Todo(b, w, c)) == (head + Todo(a[1..], w, c)) + Todo(b, w, c);
    }
  }

  lemma {:induction false} TodoNothing(table: seq<File>, w: Window, c: Cursor)
    requires forall i :: 0 <= i < |table| ==> !Wanted(table[i], w, c)
    ensures Todo(table, w, c) == []
  {
    if table != [] {
      TodoNothing(table[1..], w, c);
    }
  }

  lemma {:induction false} TodoSame(table: seq<File>, w: Window, c: Cursor, d: Cursor)
    requires forall i :: 0 <= i < |table| ==> (Wanted(table[i], w, c) <==> Wanted(table[i], w, d))
    ensures Todo(table, w, c) == Todo(table, w, d)
  {
    if table != [] {
      TodoSame(table[1..], w, c, d);
    }
  }

  /** The first wanted file, and nothing wanted before it. */
  lemma {:induction false} FirstWanted(table: seq<File>, w: Window, c: Cursor) returns (k: nat)
    requires Todo(table, w, c) != []
    ensures k < |table| && Wanted(table[k], w, c) && Todo(table, w, c)[0] == table[k]
    ensures forall i :: 0 <= i < k ==> !Wanted(table[i], w, c)
    ensures Todo(table, w, c) == [table[k]] + Todo(table[k + 1..], w, c)
  {
    if Wanted(table[0], w, c) {
      k := 0;
    } else {
      k := FirstWanted(table[1..], w, c);
      assert table[1..][k + 1..] == table[k + 2..];
      k := k + 1;
    }
  }

  /** Nothing up to the file advanced past is wanted any more ... */
  lemma {:induction false} NoneWantedUpTo(table: seq<File>, w: Window, c: Cursor, k: nat)
    requires Frozen(table) && k < |table| && Wanted(table[k], w, c) && forall i :: 0 <= i < k ==> !Wanted(table[i], w, c)
    ensures forall i :: 0 <= i < k + 1 ==> !Wanted(table[i], w, Advance(c, table[k]))
  {
    forall i | 0 <= i < k + 1
      ensures !Wanted(table[i], w, Advance(c, table[k]))
    {
      assert i < k ==> After(table[k], table[i]);
    }
  }

  /** ... and everything behind it is wanted as before. */
  lemma {:induction false} SameWantedBehind(table: seq<File>, w: Window, c: Cursor, k: nat)
    requires Frozen(table) && k < |table| && Wanted(table[k], w, c)
    ensures Todo(table[k + 1..], w, c) == Todo(table[k + 1..], w, Advance(c, table[k]))
  {
    var rest, d := table[k + 1..], Advance(c, table[k]);
    forall i | 0 <= i < |rest|
      ensures Wanted(rest[i], w, c) <==> Wanted(rest[i], w, d)
    {
      assert rest[i] == table[k + 1 + i];
      assert After(table[k + 1 + i], table[k]);
    }
    TodoSame(rest, w, c, d);
  }

  /** Advancing past the first wanted file leaves exactly the others wanted. */
  lemma {:induction false} AdvanceLeavesRest(table: seq<File>, w: Window, c: Cursor)
    requires Frozen(table) && Todo(table, w, c) != []
    ensures Todo(table, w, Advance(c, Todo(table, w, c)[0])) == Todo(table, w, c)[1..]
  {
    var k := FirstWanted(table, w, c);
    var d, before, rest := Advance(c, table[k]), table[..k + 1], table[k + 1..];
    NoneWantedUpTo(table, w, c, k);
    TodoNothing(before, w, d);
    SameWantedBehind(table, w, c, k);
    TodoConcat(before, rest, w, d);
    assert table == before + rest;
  }

  /** The cursor after pushing files one by one. */
  function Pushed(c: Cursor, files: seq<File>): Cursor {
    if files == [] then c else Advance(Pushed(c, files[..|files| - 1]), files[|files| - 1])
  }

  /** Restarting from the cursor after any number of pushes leaves exactly the files not yet pushed. */
  lemma {:induction false} RestartResumes(table: seq<File>, w: Window, c: Cursor, n: nat)
    requires Frozen(table) && n <= |Todo(table, w, c)|
    ensures Todo(table, w, Pushed(c, Todo(table, w, c)[..n])) == Todo(table, w, c)[n..]
  {
    if n > 0 {
      var all := Todo(table, w, c);
      var front := all[..n - 1];
      RestartResumes(table, w, c, n - 1);
      PushedOneMore(c, all, n);
      TailOf(all, n);
      AdvanceLeavesRest(table, w, Pushed(c, front));
    }
  }

  lemma {:induction false} PushedOneMore(c: Cursor, files: seq<File>, n: nat)
    requires 0 < n <= |files|
    ensures Pushed(c, files[..n]) == Advance(Pushed(c, files[..n - 1]), files[n - 1])
  {
    var part := files[..n];
    assert part[..|part| - 1] == files[..n - 1];
  }

  lemma {:induction false} TailOf(files: seq<File>, n: nat)
    requires 0 < n <= |files|
    ensures files[n - 1..] != [] && files[n - 1..][0] == files[n - 1] && files[n - 1..][1..] == files[n..]
  {
  }

  /**
   A run cut after `k` pushes whose last commit was after `j` of them, and a second run that completes: together they
   push every wanted file, and only those between the commit and the cut twice.
   */
  lemma {:induction false} RestartNeverSkips(table: seq<File>, w: Window, c: Cursor, j: nat, k: nat)
    requires Frozen(table) && j <= k <= |Todo(table, w, c)|
    ensures var all := Todo(table, w, c);
            var again := Todo(table, w, Pushed(c, all[..j]));
            again == all[j..] && all[..k] + again[k - j..] == all
  {
    RestartResumes(table, w, c, j);
  }

  /** From an empty cursor the wanted files are all non-empty files of the window, each once and in order. */
  lemma {:induction false} FreshTodo(table: seq<File>, w: Window)
    requires Frozen(table)
    ensures var todo := Todo(table, w, Cursor(None, []));
            && (forall f :: f in todo <==> f in table && f.entries != [] && w.since <= f.created && Before(f, w.until))
            && Frozen(todo)
  {
    if table != [] {
      FreshTodo(table[1..], w);
      assert table == [table[0]] + table[1..];
      var rest := Todo(table[1..], w, Cursor(None, []));
      forall i | 0 <= i < |rest|
        ensures After(rest[i], table[0]) && rest[i].id != table[0].id
      {
        assert rest[i] in table[1..];
        var j :| 0 <= j < |table[1..]| && table[1..][j] == rest[i];
        assert rest[i] == table[j + 1];
      }
    }
  }

  // ----- pages -----

  /** The files created at or after a date. */
  function From(table: seq<File>, since: int): seq<File> {
    if table == [] then []
    else (if table[0].created >= since then [table[0]] else []) + From(table[1..], since)
  }

  function Listing(table: seq<File>, since: int, pageSize: nat): seq<File> {
    var rows := From(table, since);
    if |rows| > pageSize then rows[..pageSize] else rows
  }

  lemma {:induction false} FromAll(table: seq<File>, since: int)
    requires forall i :: 0 <= i < |table| ==> table[i].created >= since
    ensures From(table, since) == table
  {
    if table != [] {
      FromAll(table[1..], since);
    }
  }

  predicate Ascending(table: seq<File>) {
    forall i, j :: 0 <= i < j < |table| ==> table[i].created <= table[j].created
  }

  /** The first `m` files, and only they, were created before the date. */
  predicate Cut(table: seq<File>, since: int, m: nat) {
    && m <= |table|
    && (forall i :: 0 <= i < m ==> table[i].created < since)
    && (forall i :: m <= i < |table| ==> table[i].created >= since)
  }

  lemma {:induction false} FromCut(table: seq<File>, since: int, m: nat)
    requires Cut(table, since, m)
    ensures From(table, since) == table[m..]
  {
    if m == 0 {
      FromAll(table, since);
    } else {
      FromCut(table[1..], since, m - 1);
    }
  }

  lemma {:induction false} SomeCut(table: seq<File>, since: int) returns (m: nat)
    requires Ascending(table)
    ensures Cut(table, since, m)
  {
    if table == [] || table[|table| - 1].created < since {
      m := |table|;
    } else {
      m := SomeCut(table[..|table| - 1], since);
    }
  }

  /** In a sorted table the files from a date on are a suffix. */
  lemma {:induction false} FromIsSuffix(table: seq<File>, since: int) returns (m: nat)
    requires Frozen(table)
    ensures Cut(table, since, m) && From(table, since) == table[m..]
  {
    FrozenIsAscending(table);
    m := SomeCut(table, since);
    FromCut(table, since, m);
  }

  /** The files of a page that are downloaded: before the end of the window and not done at the boundary. */
  function Kept(page: seq<File>, w: Window, c: Cursor): seq<File> {
    if page == [] then []
    else
      var last := page[|page| - 1];
      Kept(page[..|page| - 1], w, c) + (if Before(last, w.until) && !DoneAtBoundary(last, c) then [last] else [])
  }

  function NonEmpty(files: seq<File>): seq<File> {
    if files == [] then []
    else NonEmpty(files[..|files| - 1]) + (if files[|files| - 1].entries == [] then [] else [files[|files| - 1]])
  }

  lemma {:induction false} TodoLast(files: seq<File>, w: Window, c: Cursor)
    requires files != []
    ensures Todo(files, w, c) ==
            Todo(files[..|files| - 1], w, c) + (if Wanted(files[|files| - 1], w, c) then [files[|files| - 1]] else [])
  {
    var front, last := files[..|files| - 1], files[|files| - 1];
    TodoConcat(front, [last], w, c);
    assert files == front + [last];
  }

  /** The non-empty files among those downloaded are the wanted ones of the page. */
  lemma {:induction false} KeptIsTodo(page: seq<File>, w: Window, c: Cursor)
    requires forall i :: 0 <= i < |page| ==> page[i].created >= Low(w, c)
    ensures NonEmpty(Kept(page, w, c)) == Todo(page, w, c)
  {
    if page != [] {
      var front, last := page[..|page| - 1], page[|page| - 1];
      KeptIsTodo(front, w, c);
      TodoLast(page, w, c);
      var kept := Kept(front, w, c);
      if Before(last, w.until) && !DoneAtBoundary(last, c) {
        assert (kept + [last])[..|kept|] == kept;
      } else {
        assert Kept(page, w, c) == kept;
      }
    }
  }

  /** What is left to push lies at or after the listing position, which is at or after the cursor. */
  predicate Ahead(table: seq<File>, w: Window, c: Cursor, since: int) {
    && Low(w, c) <= since
    && forall i :: 0 <= i < |table| && table[i].created < since ==> !Wanted(table[i], w, c)
  }

  /** Where a page lies in the table. */
  lemma {:induction false} PageIsSlice(table: seq<File>, since: int, pageSize: nat) returns (m: nat)
    requires Frozen(table)
    ensures var page := Listing(table, since, pageSize);
            && Cut(table, since, m) && m + |page| <= |table| && page == table[m..m + |page|]
            && (|page| < pageSize ==> m + |page| == |table|)
  {
    m := FromIsSuffix(table, since);
  }

  /** The rest comes after the page, and the page after its first file. */
  predicate Follows(page: seq<File>, rest: seq<File>) {
    page != [] ==>
      && (forall i :: 0 <= i < |page| ==> page[0].created <= page[i].created <= page[|page| - 1].created)
      && (forall i :: 0 <= i < |rest| ==> page[|page| - 1].created <= rest[i].created)
  }

  lemma {:induction false} RestFollows(table: seq<File>, m: nat, n: nat)
    requires Ascending(table) && m <= n <= |table|
    ensures Follows(table[m..n], table[n..])
  {
  }

  lemma {:induction false} FrozenIsAscending(table: seq<File>)
    requires Frozen(table)
    ensures Ascending(table)
  {
    forall i, j | 0 <= i < j < |table|
      ensures table[i].created <= table[j].created
    {
      assert After(table[j], table[i]);
    }
  }

  /** A page cuts the table in three: files before its date, the page, and the rest. */
  predicate Parts(table: seq<File>, since: int, before: seq<File>, page: seq<File>, rest: seq<File>) {
    && table == before + (page + rest)
    && (forall i :: 0 <= i < |before| ==> before[i].created < since)
    && (forall i :: 0 <= i < |page| ==> page[i].created >= since)
    && Follows(page, rest)
  }

  lemma {:induction false} PageParts(table: seq<File>, since: int, pageSize: nat) returns (before: seq<File>, rest: seq<File>)
    requires Frozen(table)
    ensures var page := Listing(table, since, pageSize);
            Parts(table, since, before, page, rest) && (|page| < pageSize ==> rest == [])
  {
    var m := PageIsSlice(table, since, pageSize);
    var n := m + |Listing(table, since, pageSize)|;
    before, rest := table[..m], table[n..];
    FrozenIsAscending(table);
    PartsOfSlice(table, since, m, n);
  }

  lemma {:induction false} PartsOfSlice(table: seq<File>, since: int, m: nat, n: nat)
    requires Ascending(table) && Cut(table, since, m) && m <= n <= |table|
    ensures Parts(table, since, table[..m], table[m..n], table[n..])
  {
    RestFollows(table, m, n);
  }

  /** A page holds the next files to push. */
  lemma {:induction false} PageIsNext(table: seq<File>, w: Window, c: Cursor, since: int, before: seq<File>, page: seq<File>, rest: seq<File>)
    requires Parts(table, since, before, page, rest) && Ahead(table, w, c, since)
    ensures Todo(table, w, c) == Todo(page, w, c) + Todo(rest, w, c)
    ensures NonEmpty(Kept(page, w, c)) == Todo(page, w, c)
  {
    forall i | 0 <= i < |before|
      ensures !Wanted(before[i], w, c)
    {
      assert before[i] == table[i];
    }
    TodoNothing(before, w, c);
    TodoConcat(before, page + rest, w, c);
    TodoConcat(page, rest, w, c);
    KeptIsTodo(page, w, c);
  }

  lemma {:induction false} PushedConcat(c: Cursor, a: seq<File>, b: seq<File>)
    ensures Pushed(c, a + b) == Pushed(Pushed(c, a), b)
  {
    if b == [] {
      assert a + b == a;
    } else {
      PushedConcat(c, a, b[..|b| - 1]);
      assert (a + b)[..|a + b| - 1] == a + b[..|b| - 1];
    }
  }

  /** Pushing files brings the cursor to the date of the last one. */
  lemma {:induction false} PushedLow(w: Window, c: Cursor, files: seq<File>)
    ensures Low(w, Pushed(c, files)) == if files == [] then Low(w, c) else files[|files| - 1].created
  {
  }

  lemma {:induction false} TodoMembers(table: seq<File>, w: Window, c: Cursor)
    ensures forall f :: f in Todo(table, w, c) <==> f in table && Wanted(f, w, c)
  {
    if table != [] {
      TodoMembers(table[1..], w, c);
      assert table == [table[0]] + table[1..];
    }
  }

  /** The run so far: the first of the files to push are pushed, the cursor is past them, the others are left. */
  predicate OnTrack(table: seq<File>, w: Window, start: Cursor, all: seq<File>, pushed: seq<File>, c: Cursor) {
    && pushed <= all
    && c == Pushed(start, pushed)
    && Todo(table, w, c) == all[|pushed|..]
  }

  lemma {:induction false} TrackPrefix(table: seq<File>, w: Window, start: Cursor, all: seq<File>, n: nat)
    requires Frozen(table) && all == Todo(table, w, start) && n <= |all|
    ensures OnTrack(table, w, start, all, all[..n], Pushed(start, all[..n]))
  {
    RestartResumes(table, w, start, n);
  }

  /** Pushing some of the next files. */
  lemma {:induction false} PushMore(table: seq<File>, w: Window, start: Cursor, all: seq<File>, pushed: seq<File>, c: Cursor, part: seq<File>)
    requires Frozen(table) && all == Todo(table, w, start) && OnTrack(table, w, start, all, pushed, c)
    requires part <= Todo(table, w, c)
    ensures OnTrack(table, w, start, all, pushed + part, Pushed(c, part))
  {
    assert pushed + part == all[..|pushed| + |part|];
    PushedConcat(start, pushed, part);
    TrackPrefix(table, w, start, all, |pushed| + |part|);
  }

  /** Once a page is pushed, nothing wanted is left before its last file. */
  lemma {:induction false} NextIsAhead(table: seq<File>, w: Window, c: Cursor, page: seq<File>, rest: seq<File>, d: Cursor)
    requires page != [] && Follows(page, rest) && Todo(table, w, d) == Todo(rest, w, c)
    requires Low(w, d) <= page[|page| - 1].created
    ensures Ahead(table, w, d, page[|page| - 1].created)
  {
    TodoMembers(table, w, d);
    TodoMembers(rest, w, c);
    assert forall f :: f in rest ==> page[|page| - 1].created <= f.created;
    forall i | 0 <= i < |table|
      ensures Wanted(table[i], w, d) ==> page[|page| - 1].created <= table[i].created
    {
      assert table[i] in Todo(table, w, d) <==> Wanted(table[i], w, d);
    }
  }

  lemma {:induction false} PageLow(w: Window, c: Cursor, page: seq<File>, rest: seq<File>)
    requires page != [] && Follows(page, rest) && Low(w, c) <= page[0].created
    ensures Low(w, Pushed(c, Todo(page, w, c))) <= page[|page| - 1].created
  {
    var files := Todo(page, w, c);
    PushedLow(w, c, files);
    TodoMembers(page, w, c);
    assert files != [] ==> files[|files| - 1] in files;
  }

  /** Nothing is wanted once the first file of a page lies beyond the window. */
  lemma {:induction false} BeyondWindow(page: seq<File>, rest: seq<File>, w: Window, c: Cursor)
    requires w.until.Some? && page != [] && page[0].created >= w.until.value && Follows(page, rest)
    ensures Todo(page, w, c) == [] && Todo(rest, w, c) == []
  {
    TodoNothing(page, w, c);
    TodoNothing(rest, w, c);
  }

  datatype Outcome = Continue | StopType | AbortRun

  /** Download and push files in order; a failed download gives the type up, a failed push the whole run. */
  method ProcessFiles(files: seq<File>, c: Cursor, badDownload: File -> bool, aborts: File -> bool)
    returns (pushed: seq<File>, c': Cursor, outcome: Outcome)
    ensures pushed <= NonEmpty(files) && c' == Pushed(c, pushed)
    ensures outcome.Continue? ==> pushed == NonEmpty(files)
    ensures !outcome.Continue? ==> exists f :: f in files && (badDownload(f) || aborts(f))
  {
    pushed, c', outcome := [], c, Continue;
    for i := 0 to |files|
      invariant pushed == NonEmpty(files[..i]) && c' == Pushed(c, pushed) && outcome.Continue?
    {
      var f := files[i];
      assert files[..i + 1][..i] == files[..i];
      NonEmptyPrefix(files, i);
      if badDownload(f) {
        return pushed, c', StopType;
      }
      if f.entries != [] {
        if aborts(f) {
          return pushed, c', AbortRun;
        }
        assert (pushed + [f])[..|pushed|] == pushed;
        pushed := pushed + [f];
        c' := Advance(c', f);
      }
    }
    assert files[..|files|] == files;
  }

  lemma {:induction false} NonEmptyPrefix(files: seq<File>, i: nat)
    requires i <= |files|
    ensures NonEmpty(files[..i]) <= NonEmpty(files)
  {
    if i < |files| {
      var front := files[..|files| - 1];
      NonEmptyPrefix(front, i);
      assert front[..i] == files[..i];
    } else {
      assert files[..i] == files;
    }
  }

  /** The files of a page that the run downloads. */
  method KeepFiles(page: seq<File>, w: Window, c: Cursor) returns (files: seq<File>)
    ensures files == Kept(page, w, c)
  {
    files := [];
    for i := 0 to |page|
      invariant files == Kept(page[..i], w, c)
    {
      assert page[..i + 1][..i] == page[..i];
      if Before(page[i], w.until) && !DoneAtBoundary(page[i], c) {
        files := files + [page[i]];
      }
    }
    assert page[..|page|] == page;
  }

  /** The wanted files of a page, or some first of them, are the next ones to push. */
  lemma {:induction false} PartOfPage(table: seq<File>, w: Window, start: Cursor, all: seq<File>, pushed: seq<File>, c: Cursor, since: int,
                                      before: seq<File>, page: seq<File>, rest: seq<File>, part: seq<File>)
    requires Frozen(table) && all == Todo(table, w, start) && OnTrack(table, w, start, all, pushed, c) && Ahead(table, w, c, since)
    requires Parts(table, since, before, page, rest) && part <= NonEmpty(Kept(page, w, c))
    ensures OnTrack(table, w, start, all, pushed + part, Pushed(c, part))
  {
    PageIsNext(table, w, c, since, before, page, rest);
    PushMore(table, w, start, all, pushed, c, part);
  }

  lemma {:induction false} PushedLeaves(table: seq<File>, w: Window, c: Cursor, part: seq<File>, rest: seq<File>)
    requires Frozen(table) && Todo(table, w, c) == part + rest
    ensures Todo(table, w, Pushed(c, part)) == rest
  {
    assert (part + rest)[..|part|] == part;
    RestartResumes(table, w, c, |part|);
  }

  /** After the whole page the run continues at the date of its last file, or is over if nothing follows the page. */
  lemma {:induction false} WholePage(table: seq<File>, w: Window, c: Cursor, since: int, before: seq<File>, page: seq<File>, rest: seq<File>)
    requires Frozen(table) && Ahead(table, w, c, since) && Parts(table, since, before, page, rest) && page != []
    ensures var d := Pushed(c, NonEmpty(Kept(page, w, c)));
            Ahead(table, w, d, page[|page| - 1].created) && (rest == [] ==> Todo(table, w, d) == [])
  {
    PageIsNext(table, w, c, since, before, page, rest);
    PushedLeaves(table, w, c, Todo(page, w, c), Todo(rest, w, c));
    PageLow(w, c, page, rest);
    NextIsAhead(table, w, c, page, rest, Pushed(c, Todo(page, w, c)));
  }

  /** The run is over when the page is empty or begins beyond the window. */
  lemma {:induction false} NothingLeft(table: seq<File>, w: Window, c: Cursor, since: int, before: seq<File>, page: seq<File>, rest: seq<File>)
    requires Ahead(table, w, c, since) && Parts(table, since, before, page, rest)
    requires (page == [] && rest == []) || (page != [] && w.until.Some? && page[0].created >= w.until.value)
    ensures Todo(table, w, c) == []
  {
    PageIsNext(table, w, c, since, before, page, rest);
    if page != [] {
      BeyondWindow(page, rest, w, c);
    }
  }

  lemma {:induction false} KeptHas(page: seq<File>, w: Window, c: Cursor, k: nat)
    requires k < |page| && Before(page[k], w.until) && !DoneAtBoundary(page[k], c)
    ensures page[k] in Kept(page, w, c)
  {
    if k < |page| - 1 {
      KeptHas(page[..|page| - 1], w, c, k);
    }
  }

  /** The in-memory cursor of a type. */
  class TypeCursor {
    var lastCreated: Option<int>
    var doneIds: seq<int>

    function View(): Cursor
      reads this
    {
      Cursor(lastCreated, doneIds)
    }

    constructor (c: Cursor)
      ensures View() == c
    {
      lastCreated, doneIds := c.last, c.done;
    }

    method AdvancePast(f: File)
      modifies this
      ensures View() == Advance(old(View()), f)
    {
      if lastCreated == Some(f.created) {
        if f.id !in doneIds {
          doneIds := doneIds + [f.id];
        }
      } else {
        lastCreated, doneIds := Some(f.created), [f.id];
      }
    }
  }
}
