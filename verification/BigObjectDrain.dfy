/**
 The newest-first drain of a Salesforce Big Object (src/sf2loki/sources/eventlog_objects_source.py, `_drain_big_object`).

 Big Objects are paged in descending time order with a ratcheting upper bound; a page whose rows all share one
 timestamp is escaped with an id exclusion list. The table is frozen; the server picks the order among ties anew for
 every query.
 */
module BigObjectDrain {
  import opened Options
  import opened Windows

  /** Ids are unique and not empty in a table; timestamps are integers. */
  datatype Record = Record(id: string, ts: int)

  predicate UniqueIds(table: set<Record>) {
    forall r, q :: r in table && q in table && r.id == q.id ==> r == q
  }

  /** The part of the WHERE clause beyond the watermark. */
  datatype Bound = Unbounded | AtMost(upper: int) | Below(upper: int) | Tie(ts: int, excluded: set<string>)

  predicate Matches(r: Record, bound: Bound) {
    match bound
    case Unbounded => true
    case AtMost(upper) => r.ts <= upper
    case Below(upper) => r.ts < upper
    case Tie(ts, excluded) => r.ts == ts && r.id !in excluded
  }

  function Selected(table: set<Record>, watermark: int): set<Record> {
    set r | r in table && r.ts >= watermark
  }

  predicate Descending(s: seq<Record>) {
    forall i, j :: 0 <= i <= j < |s| ==> s[i].ts >= s[j].ts
  }

  predicate Distinct(s: seq<Record>) {
    forall i, j :: 0 <= i < j < |s| ==> s[i] != s[j]
  }

  /** An honest answer: the newest `limit` matching rows, ties cut anywhere. */
  predicate HonestPage(page: seq<Record>, rows: set<Record>, bound: Bound, limit: nat) {
    && |page| <= limit
    && Distinct(page)
    && Descending(page)
    && (forall i :: 0 <= i < |page| ==> page[i] in rows && Matches(page[i], bound))
    && (|page| < limit ==> forall r :: r in rows && Matches(r, bound) ==> r in page)
    && (forall r :: r in rows && Matches(r, bound) && r !in page ==> forall i :: 0 <= i < |page| ==> r.ts <= page[i].ts)
  }

  /** The server: what it answers to its n-th query. */
  type Server = (nat, Bound) -> seq<Record>

  ghost predicate Honest(server: Server, rows: set<Record>, limit: nat) {
    forall n, bound :: HonestPage(server(n, bound), rows, bound, limit)
  }

  // ----- the collected rows -----

  predicate Holds(s: seq<Record>, id: string) {
    exists i :: 0 <= i < |s| && s[i].id == id
  }

  /** The rows of a page not collected yet, in page order. */
  function Fresh(collected: seq<Record>, page: seq<Record>): seq<Record> {
    if page == [] then []
    else
      var last := page[|page| - 1];
      var before := Fresh(collected, page[..|page| - 1]);
      if Holds(collected, last.id) then before else before + [last]
  }

  ghost predicate FreshOf(collected: seq<Record>, page: seq<Record>, added: seq<Record>) {
    && Distinct(added) && Descending(added)
    && (forall r :: r in added <==> r in page && !Holds(collected, r.id))
  }

  lemma {:induction false} FreshSpec(collected: seq<Record>, page: seq<Record>)
    requires Distinct(page) && Descending(page)
    ensures FreshOf(collected, page, Fresh(collected, page))
  {
    if page != [] {
      var last := page[|page| - 1];
      var front := page[..|page| - 1];
      FreshSpec(collected, front);
      assert page == front + [last];
      var before := Fresh(collected, front);
      forall i | 0 <= i < |before|
        ensures before[i] != last && before[i].ts >= last.ts
      {
        assert before[i] in front;
      }
    }
  }

  function ToSet(s: seq<Record>): set<Record> {
    set i | 0 <= i < |s| :: s[i]
  }

  lemma {:induction false} SameMembers(s: seq<Record>)
    ensures forall r :: r in ToSet(s) <==> r in s
  {
  }

  lemma {:induction false} SizeOfDistinct(s: seq<Record>)
    requires Distinct(s)
    ensures |ToSet(s)| == |s|
  {
    if s != [] {
      var front := s[..|s| - 1];
      SizeOfDistinct(front);
      assert ToSet(s) == ToSet(front) + {s[|s| - 1]};
    }
  }

  /** Rows `s` were fetched, newest first, and no fetched row outside `s` is older than one inside. */
  predicate Oldest(fetched: set<Record>, s: seq<Record>) {
    && Distinct(s) && Descending(s)
    && (forall i :: 0 <= i < |s| ==> s[i] in fetched)
    && (forall r, i :: r in fetched && r !in s && 0 <= i < |s| ==> r.ts >= s[i].ts)
  }

  /** What is collected of the rows fetched so far: all of them, or the oldest ones when capped. */
  predicate CollectedInv(fetched: set<Record>, collected: seq<Record>, cap: nat) {
    && Oldest(fetched, collected)
    && (cap > 0 ==> |collected| <= cap)
    && (fetched <= ToSet(collected) || (cap > 0 && |collected| == cap))
  }

  /** Every row of the page is no newer than any row fetched. */
  predicate NoNewer(page: seq<Record>, fetched: set<Record>) {
    forall r, i :: r in fetched && 0 <= i < |page| ==> r.ts >= page[i].ts
  }

  lemma {:induction false} AppendKeepsAll(rows: set<Record>, fetched: set<Record>, collected: seq<Record>, page: seq<Record>, added: seq<Record>)
    requires UniqueIds(rows) && fetched <= rows && ToSet(page) <= rows
    requires (forall i :: 0 <= i < |collected| ==> collected[i] in fetched) && FreshOf(collected, page, added)
    ensures ToSet(page) <= ToSet(collected + added)
    ensures ToSet(collected) <= ToSet(collected + added)
  {
    var all := collected + added;
    forall r | r in ToSet(page)
      ensures r in ToSet(all)
    {
      if Holds(collected, r.id) {
        var i :| 0 <= i < |collected| && collected[i].id == r.id;
        assert all[i] == r;
      } else {
        assert r in page && r in added;
        var i :| 0 <= i < |added| && added[i] == r;
        assert all[|collected| + i] == r;
      }
    }
    forall r | r in ToSet(collected)
      ensures r in ToSet(all)
    {
      var i :| 0 <= i < |collected| && collected[i] == r;
      assert all[i] == r;
    }
  }

  lemma {:induction false} AppendKeepsOldest(rows: set<Record>, fetched: set<Record>, collected: seq<Record>, page: seq<Record>, added: seq<Record>)
    requires UniqueIds(rows) && fetched <= rows && ToSet(page) <= rows
    requires Oldest(fetched, collected) && NoNewer(page, fetched) && FreshOf(collected, page, added)
    ensures Oldest(fetched + ToSet(page), collected + added)
  {
    var all := collected + added;
    AppendKeepsAll(rows, fetched, collected, page, added);
    forall i | 0 <= i < |added|
      ensures added[i] in page && added[i] in ToSet(page) && !Holds(collected, added[i].id)
    {
      var r := added[i];
      assert r in added;
      var j :| 0 <= j < |page| && page[j] == r;
    }
    forall i, j | 0 <= i < |collected| && 0 <= j < |added|
      ensures collected[i] != added[j] && collected[i].ts >= added[j].ts
    {
      var q :| 0 <= q < |page| && page[q] == added[j];
    }
    forall r, i | r in fetched + ToSet(page) && r !in all && 0 <= i < |all|
      ensures r.ts >= all[i].ts
    {
      if i >= |collected| {
        var q :| 0 <= q < |page| && page[q] == added[i - |collected|];
        assert all[i] == page[q];
      }
    }
  }

  /** Rows outside `kept` are at least as new as those inside. */
  predicate NewerOutside(fetched: set<Record>, kept: seq<Record>) {
    forall r, i :: r in fetched && r !in kept && 0 <= i < |kept| ==> r.ts >= kept[i].ts
  }

  lemma {:induction false} DroppedIsNewer(fetched: set<Record>, all: seq<Record>, n: nat)
    requires Descending(all) && n <= |all| && NewerOutside(fetched, all)
    ensures NewerOutside(fetched, all[n..])
  {
    var kept := all[n..];
    assert forall m :: n <= m < |all| ==> all[m] == kept[m - n] && all[m] in kept;
    forall r, i | r in fetched && r !in kept && 0 <= i < |kept|
      ensures r.ts >= kept[i].ts
    {
      assert kept[i] == all[n + i];
      if r in all {
        var j :| 0 <= j < |all| && all[j] == r;
      }
    }
  }

  /** Eviction from the front drops rows at least as new as those it keeps. */
  lemma {:induction false} EvictionKeepsOldest(fetched: set<Record>, all: seq<Record>, n: nat)
    requires Oldest(fetched, all) && n <= |all|
    ensures Oldest(fetched, all[n..])
  {
    assert NewerOutside(fetched, all);
    DroppedIsNewer(fetched, all, n);
  }

  // ----- one turn of the paging loop, on sets -----

  function Ids(s: set<Record>): set<string> {
    set r | r in s :: r.id
  }

  datatype Turn = Finished | Stalled | Next(bound: Bound)

  /**
   Where the loop goes after a page of `size` rows between `oldest` and `newest`; `page` are its rows and `added` those
   that were not collected.
   */
  function Advance(bound: Bound, size: nat, newest: int, oldest: int, page: set<Record>, added: set<Record>, limit: nat): Turn {
    if bound.Tie? then
      if size < limit then Next(Below(bound.ts))
      else if added == {} then Stalled
      else Next(Tie(bound.ts, bound.excluded + Ids(added)))
    else
      if size < limit then Finished
      else if newest == oldest then Next(Tie(newest, Ids(page)))
      else if added == {} then Stalled
      else Next(AtMost(oldest))
  }

  /** What a non-empty or short honest page tells about the table. */
  predicate PageFacts(rows: set<Record>, bound: Bound, limit: nat, page: set<Record>, newest: int, oldest: int) {
    && page <= rows && |page| <= limit
    && (forall r :: r in page ==> Matches(r, bound) && oldest <= r.ts <= newest)
    && (|page| < limit ==> forall r :: r in rows && Matches(r, bound) ==> r in page)
    && (|page| == limit ==>
          && (exists r :: r in page && r.ts == newest) && (exists r :: r in page && r.ts == oldest)
          && (forall r :: r in rows && Matches(r, bound) && r !in page ==> r.ts <= oldest))
  }

  /** `stale` holds the rows at the boundary fetched before it became one; there are fewer than a page of them. */
  predicate Inv(rows: set<Record>, limit: nat, bound: Bound, fetched: set<Record>, stale: set<Record>) {
    && fetched <= rows && |stale| < limit
    && match bound
       case Unbounded => fetched == {}
       case AtMost(upper) =>
         && (forall r :: r in rows && r.ts > upper ==> r in fetched)
         && (forall r :: r in fetched ==> r.ts >= upper && (r.ts == upper ==> r in stale))
       case Below(upper) =>
         && (forall r :: r in rows && r.ts >= upper ==> r in fetched)
         && (forall r :: r in fetched ==> r.ts >= upper)
       case Tie(ts, excluded) =>
         && (forall r :: r in rows && r.ts > ts ==> r in fetched)
         && (forall r :: r in fetched ==> r.ts >= ts && (r.ts == ts && r.id !in excluded ==> r in stale))
         && (forall r :: r in rows && r.ts == ts && r.id in excluded ==> r in fetched)
         && (exists r :: r in rows && r.ts == ts)
  }

  /** The rows a bound leaves to be looked at, and at a tie those not excluded yet. */
  function Ahead(rows: set<Record>, bound: Bound): set<Record> {
    match bound
    case Unbounded => rows
    case AtMost(upper) => set r | r in rows && r.ts <= upper
    case Below(upper) => set r | r in rows && r.ts < upper
    case Tie(ts, _) => set r | r in rows && r.ts <= ts
  }

  function Untold(rows: set<Record>, bound: Bound): set<Record> {
    if bound.Tie? then set r | r in rows && Matches(r, bound) else rows
  }

  /** The termination measure of the loop. */
  predicate Shrinks(rows: set<Record>, before: Bound, after: Bound) {
    || |Ahead(rows, after)| < |Ahead(rows, before)|
    || (&& |Ahead(rows, after)| == |Ahead(rows, before)| && after.Tie?
        && (before.Tie? ==> |Untold(rows, after)| < |Untold(rows, before)|))
  }

  lemma {:induction false} SubsetSize(a: set<Record>, b: set<Record>)
    requires a <= b
    ensures |a| <= |b|
    ensures a != b ==> |a| < |b|
  {
    assert b == a + (b - a);
  }

  lemma {:induction false} ShortTieTurn(rows: set<Record>, limit: nat, bound: Bound, fetched: set<Record>, stale: set<Record>,
                                        page: set<Record>, newest: int, oldest: int)
    requires bound.Tie? && Inv(rows, limit, bound, fetched, stale)
    requires PageFacts(rows, bound, limit, page, newest, oldest) && |page| < limit
    ensures Inv(rows, limit, Below(bound.ts), fetched + page, stale) && Shrinks(rows, bound, Below(bound.ts))
  {
    var gone :| gone in rows && gone.ts == bound.ts;
    assert gone in Ahead(rows, bound) && gone !in Ahead(rows, Below(bound.ts));
    SubsetSize(Ahead(rows, Below(bound.ts)), Ahead(rows, bound));
    forall r | r in rows && r.ts >= bound.ts
      ensures r in fetched + page
    {
      assert r.ts == bound.ts && r.id !in bound.excluded ==> Matches(r, bound);
    }
  }

  /** A full page at a tie always brings a row that is neither collected nor excluded. */
  lemma {:induction false} FullTieTurn(rows: set<Record>, limit: nat, bound: Bound, fetched: set<Record>, stale: set<Record>,
                                       page: set<Record>, newest: int, oldest: int, added: set<Record>)
    requires bound.Tie? && UniqueIds(rows) && Inv(rows, limit, bound, fetched, stale)
    requires PageFacts(rows, bound, limit, page, newest, oldest) && |page| == limit
    requires added <= page && page - added <= fetched
    ensures added != {}
    ensures var after := Tie(bound.ts, bound.excluded + Ids(added));
            Inv(rows, limit, after, fetched + page, stale) && Shrinks(rows, bound, after)
  {
    if added == {} {
      assert page <= stale;
      SubsetSize(page, stale);
      assert false;
    }
    var after := Tie(bound.ts, bound.excluded + Ids(added));
    var one :| one in added;
    assert one in Untold(rows, bound) && one !in Untold(rows, after);
    SubsetSize(Untold(rows, after), Untold(rows, bound));
    assert Ahead(rows, after) == Ahead(rows, bound);
    forall r | r in rows && r.ts == bound.ts && r.id in after.excluded
      ensures r in fetched + page
    {
      if r.id !in bound.excluded {
        var q :| q in added && q.id == r.id;
      }
    }
  }

  lemma {:induction false} LastTurn(rows: set<Record>, limit: nat, bound: Bound, fetched: set<Record>, stale: set<Record>,
                                    page: set<Record>, newest: int, oldest: int)
    requires !bound.Tie? && Inv(rows, limit, bound, fetched, stale)
    requires PageFacts(rows, bound, limit, page, newest, oldest) && |page| < limit
    ensures fetched + page == rows
  {
    forall r | r in rows
      ensures r in fetched + page
    {
      assert !Matches(r, bound) || r in page;
    }
  }

  /** A full page of one timestamp: what was fetched of it before is fewer than a page. */
  lemma {:induction false} EnterTieTurn(rows: set<Record>, limit: nat, bound: Bound, fetched: set<Record>, stale: set<Record>,
                                        page: set<Record>, ts: int)
    requires !bound.Tie? && Inv(rows, limit, bound, fetched, stale) && 0 < limit
    requires UniqueIds(rows) && PageFacts(rows, bound, limit, page, ts, ts) && |page| == limit
    ensures Inv(rows, limit, Tie(ts, Ids(page)), fetched + page, stale) && Shrinks(rows, bound, Tie(ts, Ids(page)))
  {
    var after := Tie(ts, Ids(page));
    var one :| one in page && one.ts == ts;
    assert Matches(one, bound);
    assert Ahead(rows, after) <= Ahead(rows, bound);
    SubsetSize(Ahead(rows, after), Ahead(rows, bound));
    forall r | r in rows && r.ts > ts
      ensures r in fetched + page
    {
      assert !Matches(r, bound) || r in page;
    }
    forall r | r in rows && r.ts == ts && r.id in after.excluded
      ensures r in fetched + page
    {
      var q :| q in page && q.id == r.id;
    }
  }

  /** A full page of several timestamps lowers the bound, and its oldest row is new. */
  lemma {:induction false} RatchetTurn(rows: set<Record>, limit: nat, bound: Bound, fetched: set<Record>, stale: set<Record>,
                                       page: set<Record>, newest: int, oldest: int) returns (stale': set<Record>)
    requires !bound.Tie? && Inv(rows, limit, bound, fetched, stale) && oldest != newest
    requires PageFacts(rows, bound, limit, page, newest, oldest) && |page| == limit
    ensures Inv(rows, limit, AtMost(oldest), fetched + page, stale') && Shrinks(rows, bound, AtMost(oldest))
    ensures !(page <= fetched)
  {
    stale' := set r | r in page && r.ts == oldest;
    var top :| top in page && top.ts == newest;
    var low :| low in page && low.ts == oldest;
    assert top !in stale';
    SubsetSize(stale', page);
    assert top in Ahead(rows, bound) && top !in Ahead(rows, AtMost(oldest));
    SubsetSize(Ahead(rows, AtMost(oldest)), Ahead(rows, bound));
    assert low !in fetched;
  }

  /** Every turn but the last moves on to a smaller problem, the last has seen every row, and no turn stalls. */
  lemma {:induction false} TurnIsSound(rows: set<Record>, limit: nat, bound: Bound, fetched: set<Record>, stale: set<Record>,
                                       page: set<Record>, newest: int, oldest: int, added: set<Record>)
    returns (stale': set<Record>)
    requires 0 < limit && UniqueIds(rows) && Inv(rows, limit, bound, fetched, stale)
    requires PageFacts(rows, bound, limit, page, newest, oldest)
    requires added <= page && page - added <= fetched
    ensures match Advance(bound, |page|, newest, oldest, page, added, limit)
            case Stalled => false
            case Finished => fetched + page == rows
            case Next(after) => Inv(rows, limit, after, fetched + page, stale') && Shrinks(rows, bound, after)
  {
    stale' := stale;
    if bound.Tie? {
      if |page| < limit {
        ShortTieTurn(rows, limit, bound, fetched, stale, page, newest, oldest);
      } else {
        FullTieTurn(rows, limit, bound, fetched, stale, page, newest, oldest, added);
      }
    } else if |page| < limit {
      LastTurn(rows, limit, bound, fetched, stale, page, newest, oldest);
    } else if newest == oldest {
      EnterTieTurn(rows, limit, bound, fetched, stale, page, newest);
    } else {
      stale' := RatchetTurn(rows, limit, bound, fetched, stale, page, newest, oldest);
    }
  }

  function NewestOf(page: seq<Record>): int {
    if page == [] then 0 else page[0].ts
  }

  function OldestOf(page: seq<Record>): int {
    if page == [] then 0 else page[|page| - 1].ts
  }

  /** The sequence an honest server sends, seen as a set. */
  lemma {:induction false} HonestPageFacts(rows: set<Record>, bound: Bound, limit: nat, page: seq<Record>)
    requires HonestPage(page, rows, bound, limit)
    ensures |ToSet(page)| == |page| && ToSet(page) <= rows
    ensures limit > 0 ==> PageFacts(rows, bound, limit, ToSet(page), NewestOf(page), OldestOf(page))
  {
    SizeOfDistinct(page);
    forall r | r in rows && Matches(r, bound) && r in page
      ensures r in ToSet(page)
    {
      var i :| 0 <= i < |page| && page[i] == r;
    }
    if page != [] {
      assert page[0] in ToSet(page) && page[|page| - 1] in ToSet(page);
    }
  }

  /** Rows that match the next query are no newer than those fetched. */
  lemma {:induction false} PageIsNoNewer(rows: set<Record>, limit: nat, bound: Bound, fetched: set<Record>, stale: set<Record>, page: seq<Record>)
    requires Inv(rows, limit, bound, fetched, stale) && HonestPage(page, rows, bound, limit)
    ensures NoNewer(page, fetched)
  {
    forall r, i | r in fetched && 0 <= i < |page|
      ensures r.ts >= page[i].ts
    {
      assert Matches(page[i], bound);
    }
  }

  /** The rows of the page that are not added were collected, so they had been fetched. */
  lemma {:induction false} NotAddedWasFetched(rows: set<Record>, fetched: set<Record>, collected: seq<Record>, page: seq<Record>, added: seq<Record>)
    requires UniqueIds(rows) && fetched <= rows && ToSet(page) <= rows
    requires (forall i :: 0 <= i < |collected| ==> collected[i] in fetched) && FreshOf(collected, page, added)
    ensures ToSet(added) <= ToSet(page) && ToSet(page) - ToSet(added) <= fetched
  {
    forall r | r in ToSet(added)
      ensures r in ToSet(page)
    {
      assert r in added;
      var i :| 0 <= i < |page| && page[i] == r;
    }
    forall r | r in ToSet(page) - ToSet(added)
      ensures r in fetched
    {
      SameMembers(added);
      assert r in page && r !in added;
      var i :| 0 <= i < |collected| && collected[i].id == r.id;
    }
  }

  // ----- sorting -----

  predicate Ascending(s: seq<Record>) {
    forall i, j :: 0 <= i <= j < |s| ==> s[i].ts <= s[j].ts
  }

  function Insert(r: Record, s: seq<Record>): seq<Record> {
    if s == [] || r.ts <= s[0].ts then [r] + s else [s[0]] + Insert(r, s[1..])
  }

  /** A stable ascending sort by timestamp. */
  function SortByTime(s: seq<Record>): seq<Record> {
    if s == [] then [] else Insert(s[0], SortByTime(s[1..]))
  }

  predicate NoOlder(s: seq<Record>, ts: int) {
    forall i :: 0 <= i < |s| ==> ts <= s[i].ts
  }

  lemma {:induction false} Prepend(r: Record, s: seq<Record>)
    requires Ascending(s) && NoOlder(s, r.ts)
    ensures Ascending([r] + s)
  {
  }

  lemma {:induction false} InsertNoOlder(r: Record, s: seq<Record>, ts: int)
    requires NoOlder(s, ts) && ts <= r.ts
    ensures NoOlder(Insert(r, s), ts)
  {
    if s != [] && r.ts > s[0].ts {
      InsertNoOlder(r, s[1..], ts);
    }
  }

  lemma {:induction false} InsertAscending(r: Record, s: seq<Record>)
    requires Ascending(s)
    ensures Ascending(Insert(r, s))
  {
    if s == [] || r.ts <= s[0].ts {
      Prepend(r, s);
    } else {
      InsertAscending(r, s[1..]);
      InsertNoOlder(r, s[1..], s[0].ts);
      Prepend(s[0], Insert(r, s[1..]));
    }
  }

  lemma {:induction false} InsertMembers(r: Record, s: seq<Record>)
    ensures multiset(Insert(r, s)) == multiset{r} + multiset(s)
  {
    if s != [] && r.ts > s[0].ts {
      InsertMembers(r, s[1..]);
      assert s == [s[0]] + s[1..];
    }
  }

  lemma {:induction false} SortSpec(s: seq<Record>)
    ensures Ascending(SortByTime(s)) && multiset(SortByTime(s)) == multiset(s)
  {
    if s != [] {
      SortSpec(s[1..]);
      InsertAscending(s[0], SortByTime(s[1..]));
      InsertMembers(s[0], SortByTime(s[1..]));
      assert s == [s[0]] + s[1..];
    }
  }

  // ----- the drain -----

  /** `collected` grows by the rows of the page it does not hold yet. */
  method Collect(collected: seq<Record>, page: seq<Record>) returns (all: seq<Record>, added: seq<Record>)
    requires forall i, j :: 0 <= i < j < |page| ==> page[i].id != page[j].id
    ensures added == Fresh(collected, page)
    ensures all == collected + added
  {
    all, added := collected, [];
    for i := 0 to |page|
      invariant added == Fresh(collected, page[..i])
      invariant all == collected + added
      invariant forall j :: 0 <= j < |added| ==> exists m :: 0 <= m < i && page[m] == added[j]
    {
      assert page[..i + 1][..i] == page[..i];
      var known := exists j :: 0 <= j < |all| && all[j].id == page[i].id;
      assert known == Holds(collected, page[i].id) by {
        if Holds(collected, page[i].id) {
          var j :| 0 <= j < |collected| && collected[j].id == page[i].id;
          assert all[j].id == page[i].id;
        }
      }
      if !known {
        all := all + [page[i]];
        added := added + [page[i]];
      }
    }
    assert page[..|page|] == page;
  }

  /** Pages arrive newest first, so eviction from the front keeps the oldest rows known so far. */
  method Evict(all: seq<Record>, cap: nat, ghost fetched: set<Record>) returns (kept: seq<Record>)
    requires Oldest(fetched, all)
    requires fetched <= ToSet(all) || (cap > 0 && |all| >= cap)
    ensures CollectedInv(fetched, kept, cap)
  {
    kept := all;
    if cap > 0 {
      while |kept| > cap
        invariant Oldest(fetched, kept)
        invariant fetched <= ToSet(kept) || |kept| >= cap
      {
        EvictionKeepsOldest(fetched, kept, 1);
        kept := kept[1..];
      }
    }
  }

  /** One page is fetched, collected and evicted. */
  method Absorb(ghost rows: set<Record>, ghost fetched: set<Record>, collected: seq<Record>, page: seq<Record>, cap: nat)
    returns (kept: seq<Record>, added: seq<Record>)
    requires UniqueIds(rows) && fetched <= rows && CollectedInv(fetched, collected, cap)
    requires Distinct(page) && Descending(page) && ToSet(page) <= rows && NoNewer(page, fetched)
    ensures CollectedInv(fetched + ToSet(page), kept, cap)
    ensures FreshOf(collected, page, added)
  {
    forall i, j | 0 <= i < j < |page|
      ensures page[i].id != page[j].id
    {
      assert page[i] in ToSet(page) && page[j] in ToSet(page);
    }
    var all;
    all, added := Collect(collected, page);
    FreshSpec(collected, page);
    AppendKeepsOldest(rows, fetched, collected, page, added);
    AppendKeepsAll(rows, fetched, collected, page, added);
    kept := Evict(all, cap, fetched + ToSet(page));
  }

  /** What a drain returns: rows at or after the watermark, oldest first, and none left out that is older than one returned. */
  predicate Drained(rows: set<Record>, result: seq<Record>, cap: nat) {
    && Ascending(result) && Distinct(result)
    && ToSet(result) <= rows
    && (forall r, i :: r in rows && r !in ToSet(result) && 0 <= i < |result| ==> r.ts >= result[i].ts)
    && (rows <= ToSet(result) || (cap > 0 && |result| == cap))
    && (cap > 0 ==> |result| <= cap)
  }

  /** Sorting keeps the rows, each once. */
  lemma {:induction false} SortKeepsRows(s: seq<Record>)
    requires Distinct(s)
    ensures ToSet(SortByTime(s)) == ToSet(s) && |SortByTime(s)| == |s| && Distinct(SortByTime(s))
  {
    SortSpec(s);
    var sorted := SortByTime(s);
    assert |sorted| == |multiset(sorted)| == |multiset(s)| == |s|;
    SameSet(sorted, s);
    DistinctByMultiset(s);
    DistinctFromMultiset(sorted);
  }

  lemma {:induction false} SameSet(a: seq<Record>, b: seq<Record>)
    requires multiset(a) == multiset(b)
    ensures ToSet(a) == ToSet(b)
  {
    SameMembers(a);
    SameMembers(b);
    assert forall r :: r in a <==> r in multiset(a);
    assert forall r :: r in b <==> r in multiset(b);
  }

  lemma {:induction false} SortedIsDrained(rows: set<Record>, collected: seq<Record>, cap: nat)
    requires CollectedInv(rows, collected, cap)
    ensures Drained(rows, SortByTime(collected), cap)
  {
    SortSpec(collected);
    SortKeepsRows(collected);
    var result := SortByTime(collected);
    SameMembers(collected);
    forall r, i | r in rows && r !in ToSet(result) && 0 <= i < |result|
      ensures r.ts >= result[i].ts
    {
      assert result[i] in ToSet(result);
      var j :| 0 <= j < |collected| && collected[j] == result[i];
    }
    assert ToSet(result) <= rows;
  }

  lemma {:induction false} DistinctByMultiset(s: seq<Record>)
    requires Distinct(s)
    ensures forall r :: multiset(s)[r] <= 1
  {
    if s != [] {
      var front := s[..|s| - 1];
      DistinctByMultiset(front);
      assert s == front + [s[|s| - 1]];
      assert s[|s| - 1] !in multiset(front);
    }
  }

  lemma {:induction false} DistinctFromMultiset(s: seq<Record>)
    requires forall r :: multiset(s)[r] <= 1
    ensures Distinct(s)
  {
    if s != [] {
      var front, last := s[..|s| - 1], s[|s| - 1];
      assert s == front + [last];
      assert multiset(s) == multiset(front) + multiset{last};
      assert forall r :: multiset(front)[r] <= multiset(s)[r];
      DistinctFromMultiset(front);
      assert multiset(s)[last] == multiset(front)[last] + 1;
      assert last !in front;
    }
  }

  /**
   The paging loop. Against a frozen table whose server cuts ties as it likes, it terminates without ever reaching a
   stall branch; uncapped it returns every row at or after the watermark exactly once, capped the oldest ones. When
   `stop` fires before a query it returns nothing.
   */
  method DrainBigObject(ghost table: set<Record>, server: Server, watermark: int, cap: nat, stop: nat -> bool)
    returns (result: seq<Record>, stopped: bool, stalled: bool)
    requires UniqueIds(table) && Honest(server, Selected(table, watermark), PAGE_LIMIT)
    ensures !stalled
    ensures stopped ==> result == [] && exists n: nat :: stop(n)
    ensures !stopped ==> Drained(Selected(table, watermark), result, cap)
  {
    ghost var rows := Selected(table, watermark);
    var collected: seq<Record> := [];
    var bound := Unbounded;
    var n := 0;
    ghost var fetched: set<Record>, stale: set<Record> := {}, {};
    result, stopped, stalled := [], false, false;
    while true
      invariant Inv(rows, PAGE_LIMIT, bound, fetched, stale)
      invariant CollectedInv(fetched, collected, cap)
      invariant result == [] && !stopped && !stalled
      decreases |Ahead(rows, bound)|, if bound.Tie? then 0 else 1, |Untold(rows, bound)|
    {
      if stop(n) {
        stopped := true;
        return;
      }
      var page := server(n, bound);
      n := n + 1;
      HonestPageFacts(rows, bound, PAGE_LIMIT, page);
      PageIsNoNewer(rows, PAGE_LIMIT, bound, fetched, stale, page);
      ghost var before := collected;
      var added;
      collected, added := Absorb(rows, fetched, collected, page, cap);
      NotAddedWasFetched(rows, fetched, before, page, added);
      ghost var stale' := TurnIsSound(rows, PAGE_LIMIT, bound, fetched, stale,
                                      ToSet(page), NewestOf(page), OldestOf(page), ToSet(added));
      var turn := Advance(bound, |page|, NewestOf(page), OldestOf(page), ToSet(page), ToSet(added), PAGE_LIMIT);
      fetched, stale := fetched + ToSet(page), stale';
      match turn
      case Finished => break;
      case Stalled =>
        stalled := true;
        break;
      case Next(after) =>
        bound := after;
    }
    SortedIsDrained(rows, collected, cap);
    result := SortByTime(collected);
  }
}
