/**
 What the pipeline promises: a token is committed only after everything its source yielded before it was taken by Loki
 or counted as dropped; nothing is left behind when a lane ends; bytes in flight stay bounded and no producer is stuck.
 */
module PipelineSafety {
  import opened Options
  import opened Pipeline
  import opened PipelineCauses
  import Q = BoundedQueue
  import Sink = LokiSink

  /** The last token of key `k` among a source's entries. */
  function Token(entries: seq<Entry>, k: string): Option<string> {
    if entries == [] then None
    else
      var last := entries[|entries| - 1];
      if last.key == k then Some(last.value) else Token(entries[..|entries| - 1], k)
  }

  function RealOnes(entries: seq<Entry>): seq<Entry> {
    if entries == [] then []
    else
      var last := entries[|entries| - 1];
      RealOnes(entries[..|entries| - 1]) + (if last.only then [] else [last])
  }

  /** Each key belongs to one source. */
  predicate OneSourcePerKey(owner: string -> nat, yielded: seq<seq<Entry>>) {
    forall p: nat, i :: p < |yielded| && 0 <= i < |yielded[p]| ==> owner(yielded[p][i].key) == p
  }

  predicate Owned(owner: string -> nat, events: seq<Event>) {
    forall i :: 0 <= i < |events| && events[i].Data? ==> owner(events[i].value.key) == events[i].source
  }

  lemma {:induction false} TokenOfSource(owner: string -> nat, events: seq<Event>, k: string)
    requires Owned(owner, events)
    ensures var token := Token(Q.Of(owner(k), events), k);
            if k in LastTokens(events) then token == Some(LastTokens(events)[k]) else token == None
  {
    if events != [] {
      var front, last := events[..|events| - 1], events[|events| - 1];
      TokenOfSource(owner, front, k);
      var before := Q.Of(owner(k), front);
      if last.Data? && last.source == owner(k) {
        assert (before + [last.value])[..|before|] == before;
      } else {
        assert Q.Of(owner(k), events) == before;
      }
    }
  }

  lemma {:induction false} RealsOfSource(p: nat, events: seq<Event>)
    ensures Q.Of(p, Reals(events)) == RealOnes(Q.Of(p, events))
  {
    if events != [] {
      var front, last := events[..|events| - 1], events[|events| - 1];
      RealsOfSource(p, front);
      var before := Q.Of(p, front);
      if last.Data? && last.source == p {
        assert (before + [last.value])[..|before|] == before;
      } else {
        assert Q.Of(p, events) == before;
      }
      if IsReal(last) {
        Q.OfAppend(p, Reals(front), last);
      } else {
        assert Reals(events) == Reals(front);
      }
    }
  }

  lemma {:induction false} MemberOfSource(events: seq<Event>, i: nat)
    requires i < |events| && events[i].Data?
    ensures events[i].value in Q.Of(events[i].source, events)
  {
    if i < |events| - 1 {
      MemberOfSource(events[..|events| - 1], i);
    }
  }

  lemma {:induction false} DataOfIsTaken(items: seq<Event>, i: nat)
    requires i < |DataOf(items)|
    ensures DataOf(items)[i].Data? && DataOf(items)[i] in items
  {
    var front := items[..|items| - 1];
    if i < |DataOf(front)| {
      DataOfIsTaken(front, i);
    }
  }

  /** What was flushed of a source is a prefix of what it yielded. */
  lemma {:induction false} PastIsPrefix(cfg: Config, s: Lane, p: nat)
    requires Inv(cfg, s) && p < |s.io.hands|
    ensures Q.Of(p, Past(s.closed)) + Q.Of(p, s.basket.entries) == Q.Of(p, s.io.taken)
    ensures Q.Of(p, Past(s.closed)) <= s.io.yielded[p]
  {
    DataOfKeepsSource(p, s.io.taken);
    Q.OfConcat(p, Past(s.closed), s.basket.entries);
    Q.TakenIsPrefix(s.io, p);
  }

  /** Whatever left the queue was yielded by its source. */
  lemma {:induction false} TakenWasYielded(cfg: Config, s: Lane, i: nat)
    requires Inv(cfg, s) && i < |DataOf(s.io.taken)|
    ensures var e := DataOf(s.io.taken)[i];
            e.Data? && e.source < |s.io.hands| && e.value in s.io.yielded[e.source]
  {
    var e := DataOf(s.io.taken)[i];
    DataOfIsTaken(s.io.taken, i);
    var j :| 0 <= j < |s.io.taken| && s.io.taken[j] == e;
    assert Q.Flow(s.io)[j] == e;
    MemberOfSource(s.io.taken, j);
    Q.TakenIsPrefix(s.io, e.source);
  }

  lemma {:induction false} SettledIsPast(closed: seq<Closed>, i: nat)
    requires i < |SettledOf(closed)|
    ensures SettledOf(closed)[i] in Past(closed)
  {
    var front := closed[..|closed| - 1];
    if i < |SettledOf(front)| {
      SettledIsPast(front, i);
    }
  }

  lemma {:induction false} SettledWasYielded(cfg: Config, s: Lane, i: nat)
    requires Inv(cfg, s) && i < |SettledOf(s.closed)|
    ensures var e := SettledOf(s.closed)[i];
            e.Data? && e.source < |s.io.hands| && e.value in s.io.yielded[e.source]
  {
    SettledIsPast(s.closed, i);
    var j :| 0 <= j < |Past(s.closed)| && Past(s.closed)[j] == SettledOf(s.closed)[i];
    assert DataOf(s.io.taken)[j] == Past(s.closed)[j];
    TakenWasYielded(cfg, s, j);
  }

  lemma {:induction false} BasketWasYielded(cfg: Config, s: Lane, j: nat)
    requires Inv(cfg, s) && j < |s.basket.entries|
    ensures var e := s.basket.entries[j];
            e.Data? && e.source < |s.io.hands| && e.value in s.io.yielded[e.source]
  {
    Second(DataOf(s.io.taken), Past(s.closed), s.basket.entries, j);
    TakenWasYielded(cfg, s, |Past(s.closed)| + j);
  }

  lemma {:induction false} Second(whole: seq<Event>, a: seq<Event>, b: seq<Event>, j: nat)
    requires whole == a + b && j < |b|
    ensures whole[|a| + j] == b[j]
  {
  }

  lemma {:induction false} SettledIsOwned(cfg: Config, s: Lane, owner: string -> nat)
    requires Inv(cfg, s) && OneSourcePerKey(owner, s.io.yielded)
    ensures Owned(owner, SettledOf(s.closed))
  {
    var settled := SettledOf(s.closed);
    forall i | 0 <= i < |settled| && settled[i].Data?
      ensures owner(settled[i].value.key) == settled[i].source
    {
      SettledWasYielded(cfg, s, i);
    }
  }

  lemma {:induction false} KeyHasSource(cfg: Config, s: Lane, owner: string -> nat, k: string)
    requires Inv(cfg, s) && Owned(owner, SettledOf(s.closed)) && k in s.committed
    ensures owner(k) < |s.io.hands|
  {
    var i := KeyIsSettled(SettledOf(s.closed), k);
    SettledWasYielded(cfg, s, i);
  }

  lemma {:induction false} KeyIsSettled(events: seq<Event>, k: string) returns (i: nat)
    requires k in LastTokens(events)
    ensures i < |events| && events[i].Data? && events[i].value.key == k
  {
    var last := events[|events| - 1];
    if last.Data? && last.value.key == k {
      i := |events| - 1;
    } else {
      i := KeyIsSettled(events[..|events| - 1], k);
    }
  }

  // ----- where committed tokens stand -----

  /** The position of the last entry with key `k`. */
  function LastIndex(entries: seq<Entry>, k: string): Option<nat> {
    if entries == [] then None
    else if entries[|entries| - 1].key == k then Some(|entries| - 1)
    else LastIndex(entries[..|entries| - 1], k)
  }

  /** One more flushed batch moves the position into it if it is committed and holds the key; `n` entries went before. */
  function NextAt(at: Option<nat>, n: nat, last: Closed, p: nat, k: string): Option<nat> {
    var here := LastIndex(Q.Of(p, last.batch), k);
    if last.Settled? && here.Some? then Some(n + here.value) else at
  }

  /** The position, among what source `p` yielded, of the entry whose token for `k` was committed last. */
  function CommittedAt(closed: seq<Closed>, p: nat, k: string): Option<nat> {
    if closed == [] then None
    else
      var front := closed[..|closed| - 1];
      NextAt(CommittedAt(front, p, k), |Q.Of(p, Past(front))|, closed[|closed| - 1], p, k)
  }

  lemma {:induction false} LastIndexSpec(entries: seq<Entry>, k: string)
    ensures match LastIndex(entries, k)
            case None => Token(entries, k) == None
            case Some(i) => i < |entries| && entries[i].key == k && Token(entries, k) == Some(entries[i].value)
  {
    if entries != [] {
      LastIndexSpec(entries[..|entries| - 1], k);
    }
  }

  /** The token of `k` is that of the entry at this position. */
  predicate Stands(at: Option<nat>, past: seq<Entry>, tokens: map<string, string>, k: string) {
    match at
    case None => k !in tokens
    case Some(i) => k in tokens && i < |past| && past[i].key == k && past[i].value == tokens[k]
  }

  ghost predicate StandsAt(closed: seq<Closed>, p: nat, k: string) {
    Stands(CommittedAt(closed, p, k), Q.Of(p, Past(closed)), LastTokens(SettledOf(closed)), k)
  }

  lemma {:induction false} OwnedParts(owner: string -> nat, a: seq<Event>, b: seq<Event>)
    requires Owned(owner, a + b)
    ensures Owned(owner, a) && Owned(owner, b)
  {
    forall i | 0 <= i < |a| && a[i].Data?
      ensures owner(a[i].value.key) == a[i].source
    {
      assert (a + b)[i] == a[i];
    }
    forall i | 0 <= i < |b| && b[i].Data?
      ensures owner(b[i].value.key) == b[i].source
    {
      assert (a + b)[|a| + i] == b[i];
    }
  }

  lemma {:induction false} StandsStill(at: Option<nat>, past: seq<Entry>, more: seq<Entry>, tokens: map<string, string>, k: string)
    requires Stands(at, past, tokens, k)
    ensures Stands(at, past + more, tokens, k)
  {
  }

  lemma {:induction false} StandsNext(owner: string -> nat, at: Option<nat>, past: seq<Entry>, tokens: map<string, string>, last: Closed, k: string)
    requires Stands(at, past, tokens, k) && (last.Settled? ==> Owned(owner, last.batch))
    ensures Stands(NextAt(at, |past|, last, owner(k), k), past + Q.Of(owner(k), last.batch),
                   if last.Settled? then tokens + LastTokens(last.batch) else tokens, k)
  {
    var more := Q.Of(owner(k), last.batch);
    StandsStill(at, past, more, tokens, k);
    if last.Settled? {
      TokenOfSource(owner, last.batch, k);
      LastIndexSpec(more, k);
    }
  }

  lemma {:induction false} StandsAppend(owner: string -> nat, front: seq<Closed>, last: Closed, k: string)
    requires StandsAt(front, owner(k), k) && (last.Settled? ==> Owned(owner, last.batch))
    ensures StandsAt(front + [last], owner(k), k)
  {
    var p := owner(k);
    assert (front + [last])[..|front|] == front;
    StandsNext(owner, CommittedAt(front, p, k), Q.Of(p, Past(front)), LastTokens(SettledOf(front)), last, k);
    ClosedAppend(front, last);
    Q.OfConcat(p, Past(front), last.batch);
    CloseKeepsTokens(front, last);
  }

  lemma {:induction false} CommittedStands(owner: string -> nat, closed: seq<Closed>, k: string)
    requires Owned(owner, SettledOf(closed))
    ensures StandsAt(closed, owner(k), k)
  {
    if closed != [] {
      var front, last := closed[..|closed| - 1], closed[|closed| - 1];
      OwnedParts(owner, SettledOf(front), if last.Settled? then last.batch else []);
      CommittedStands(owner, front, k);
      StandsAppend(owner, front, last, k);
      assert closed == front + [last];
    }
  }

  lemma {:induction false} LaterStandsLater(closed: seq<Closed>, n: nat, p: nat, k: string)
    requires n <= |closed| && CommittedAt(closed[..n], p, k).Some?
    ensures CommittedAt(closed, p, k).Some? && CommittedAt(closed[..n], p, k).value <= CommittedAt(closed, p, k).value
    decreases |closed|
  {
    if n < |closed| {
      var front := closed[..|closed| - 1];
      assert front[..n] == closed[..n];
      LaterStandsLater(front, n, p, k);
      AtIsPast(front, p, k);
    } else {
      assert closed[..n] == closed;
    }
  }

  lemma {:induction false} AtIsPast(closed: seq<Closed>, p: nat, k: string)
    ensures CommittedAt(closed, p, k).Some? ==> CommittedAt(closed, p, k).value < |Q.Of(p, Past(closed))|
  {
    if closed != [] {
      var front, last := closed[..|closed| - 1], closed[|closed| - 1];
      AtIsPast(front, p, k);
      LastIndexSpec(Q.Of(p, last.batch), k);
      Q.OfConcat(p, Past(front), last.batch);
    }
  }

  // ----- commit after push -----

  lemma {:induction false} EndsCover(closed: seq<Closed>)
    requires Accounted(closed)
    ensures Flat(EndsOf(closed)) == Reals(SettledOf(closed))
  {
    if closed != [] {
      var front, last := closed[..|closed| - 1], closed[|closed| - 1];
      EndsCover(front);
      FlatConcat(EndsOf(front), if last.Settled? then last.ends else []);
      RealsConcat(SettledOf(front), if last.Settled? then last.batch else []);
    }
  }

  /** Every event of a flushed batch is in a committed or in an abandoned one, each time once. */
  lemma {:induction false} PastIsShared(closed: seq<Closed>)
    ensures multiset(Past(closed)) == multiset(SettledOf(closed)) + multiset(AbandonedOf(closed))
  {
    if closed != [] {
      PastIsShared(closed[..|closed| - 1]);
    }
  }

  lemma {:induction false} UndisturbedIsSettled(closed: seq<Closed>)
    requires Undisturbed(closed)
    ensures SettledOf(closed) == Past(closed) && AbandonedOf(closed) == []
  {
    if closed != [] {
      UndisturbedIsSettled(closed[..|closed| - 1]);
    }
  }

  /**
   The committed token of a key is the last one among the first entries its source yielded, and exactly the real
   entries among those ended, in order. `first` are those entries.
   */
  ghost predicate Justified(s: Lane, p: nat, k: string, value: string, first: seq<Entry>) {
    && p < |s.io.yielded|
    && first <= s.io.yielded[p]
    && Token(first, k) == Some(value)
    && RealOnes(first) == Q.Of(p, Flat(EndsOf(s.closed)))
  }

  lemma {:induction false} InvJustifies(cfg: Config, s: Lane, owner: string -> nat, k: string)
    requires Inv(cfg, s) && Undisturbed(s.closed) && OneSourcePerKey(owner, s.io.yielded) && k in s.committed
    ensures Justified(s, owner(k), k, s.committed[k], Q.Of(owner(k), Past(s.closed)))
  {
    SettledIsOwned(cfg, s, owner);
    KeyHasSource(cfg, s, owner, k);
    UndisturbedIsSettled(s.closed);
    TokenOfSource(owner, SettledOf(s.closed), k);
    PastIsPrefix(cfg, s, owner(k));
    EndsCover(s.closed);
    RealsOfSource(owner(k), Past(s.closed));
  }

  /**
   Commit-after-push, in every interleaving and for every behaviour of Loki and of the governor, up to the first
   abandoned batch. Every entry that ended did so because Loki took it, refused it alone, or the budget was spent.
   */
  lemma {:induction false} CommittedMeansSettled(cfg: Config, n: nat, run: seq<Action>, owner: string -> nat, k: string)
    requires Legal(cfg, Opening(n), run)
    requires var s := Final(cfg, Opening(n), run);
             Undisturbed(s.closed) && OneSourcePerKey(owner, s.io.yielded) && k in s.committed
    ensures var s := Final(cfg, Opening(n), run);
            && Justified(s, owner(k), k, s.committed[k], Q.Of(owner(k), Past(s.closed)))
            && AllCaused(cfg, Opening(n), run, EndsOf(s.closed), 0)
  {
    OpeningInv(cfg, n);
    RunKeepsInv(cfg, Opening(n), run);
    InvJustifies(cfg, Final(cfg, Opening(n), run), owner, k);
    ClosedEndsAreCaused(cfg, n, run);
  }

  lemma {:induction false} ClosedEndsAreCaused(cfg: Config, n: nat, run: seq<Action>)
    requires Legal(cfg, Opening(n), run)
    ensures AllCaused(cfg, Opening(n), run, EndsOf(Final(cfg, Opening(n), run).closed), 0)
  {
    OpeningInv(cfg, n);
    EndsAreCaused(cfg, Opening(n), run);
    var s := Final(cfg, Opening(n), run);
    forall i | 0 <= i < |EndsOf(s.closed)|
      ensures CausedIn(cfg, Opening(n), run, EndsOf(s.closed)[i])
    {
      assert AllEnds(s)[i] == EndsOf(s.closed)[i];
    }
  }

  /** All that a source yielded up to position `i` was flushed; it ended, each real entry once, or is in an abandoned batch. */
  ghost predicate AccountedUpTo(s: Lane, p: nat, i: nat) {
    && p < |s.io.yielded| && i < |s.io.yielded[p]|
    && s.io.yielded[p][..i + 1] <= Q.Of(p, Past(s.closed))
    && Accounted(s.closed)
    && multiset(Past(s.closed)) == multiset(SettledOf(s.closed)) + multiset(AbandonedOf(s.closed))
    && Flat(EndsOf(s.closed)) == Reals(SettledOf(s.closed))
  }

  /**
   In every run, abandoned batches or not: a committed token stands at a position its source yielded, and everything
   the source yielded up to there ended for a reason or is in an abandoned batch, which has no ends.
   */
  lemma {:induction false} CommittedMeansAccounted(cfg: Config, n: nat, run: seq<Action>, owner: string -> nat, k: string) returns (i: nat)
    requires Legal(cfg, Opening(n), run)
    requires var s := Final(cfg, Opening(n), run); OneSourcePerKey(owner, s.io.yielded) && k in s.committed
    ensures var s := Final(cfg, Opening(n), run);
            && TokenAt(s, owner(k), k, i)
            && AccountedUpTo(s, owner(k), i)
            && AllCaused(cfg, Opening(n), run, EndsOf(s.closed), 0)
  {
    OpeningInv(cfg, n);
    RunKeepsInv(cfg, Opening(n), run);
    var s := Final(cfg, Opening(n), run);
    i := PositionByInv(cfg, s, owner, k);
    PastIsShared(s.closed);
    EndsCover(s.closed);
    ClosedEndsAreCaused(cfg, n, run);
  }

  /** The position of the committed token among what its source yielded. */
  ghost predicate TokenAt(s: Lane, p: nat, k: string, i: nat) {
    && p < |s.io.yielded| && i < |s.io.yielded[p]| && k in s.committed
    && s.io.yielded[p][i].key == k && s.io.yielded[p][i].value == s.committed[k]
  }

  lemma {:induction false} PositionByInv(cfg: Config, s: Lane, owner: string -> nat, k: string) returns (i: nat)
    requires Inv(cfg, s) && OneSourcePerKey(owner, s.io.yielded) && k in s.committed
    ensures CommittedAt(s.closed, owner(k), k) == Some(i)
    ensures TokenAt(s, owner(k), k, i) && s.io.yielded[owner(k)][..i + 1] <= Q.Of(owner(k), Past(s.closed))
  {
    SettledIsOwned(cfg, s, owner);
    KeyHasSource(cfg, s, owner, k);
    CommittedStands(owner, s.closed, k);
    PastIsPrefix(cfg, s, owner(k));
    i := CommittedAt(s.closed, owner(k), k).value;
  }

  lemma {:induction false} ClosedGrows(cfg: Config, s: Lane, run: seq<Action>)
    requires Legal(cfg, s, run)
    ensures s.closed <= Final(cfg, s, run).closed
    decreases |run|
  {
    if |run| > 0 {
      ClosedGrows(cfg, Apply(cfg, s, run[0]), run[1..]);
    }
  }

  /** The token committed for a key later in a run was yielded at the same position or later, abandoned batches or not. */
  lemma {:induction false} CommitsFollowYieldOrder(cfg: Config, s: Lane, run: seq<Action>, owner: string -> nat, k: string) returns (i: nat, j: nat)
    requires Inv(cfg, s) && Legal(cfg, s, run) && k in s.committed
    requires OneSourcePerKey(owner, s.io.yielded) && OneSourcePerKey(owner, Final(cfg, s, run).io.yielded)
    ensures i <= j && TokenAt(s, owner(k), k, i) && TokenAt(Final(cfg, s, run), owner(k), k, j)
  {
    RunKeepsInv(cfg, s, run);
    ClosedGrows(cfg, s, run);
    i, j := PositionsGrow(cfg, s, Final(cfg, s, run), owner, k);
  }

  lemma {:induction false} PositionsGrow(cfg: Config, s: Lane, t: Lane, owner: string -> nat, k: string) returns (i: nat, j: nat)
    requires Inv(cfg, s) && Inv(cfg, t) && s.closed <= t.closed && k in s.committed
    requires OneSourcePerKey(owner, s.io.yielded) && OneSourcePerKey(owner, t.io.yielded)
    ensures i <= j && TokenAt(s, owner(k), k, i) && TokenAt(t, owner(k), k, j)
  {
    i := PositionByInv(cfg, s, owner, k);
    LaterIsLater(s.closed, t.closed, owner(k), k);
    StaysCommitted(cfg, t, owner, k);
    j := PositionByInv(cfg, t, owner, k);
  }

  lemma {:induction false} LaterIsLater(a: seq<Closed>, b: seq<Closed>, p: nat, k: string)
    requires a <= b && CommittedAt(a, p, k).Some?
    ensures CommittedAt(b, p, k).Some? && CommittedAt(a, p, k).value <= CommittedAt(b, p, k).value
  {
    assert b[..|a|] == a;
    LaterStandsLater(b, |a|, p, k);
  }

  lemma {:induction false} StaysCommitted(cfg: Config, t: Lane, owner: string -> nat, k: string)
    requires Inv(cfg, t) && OneSourcePerKey(owner, t.io.yielded) && CommittedAt(t.closed, owner(k), k).Some?
    ensures k in t.committed
  {
    SettledIsOwned(cfg, t, owner);
    CommittedStands(owner, t.closed, k);
  }

  lemma {:induction false} DoneIsComplete(cfg: Config, s: Lane, p: nat)
    requires Inv(cfg, s) && s.phase.Done? && p < |s.io.yielded|
    ensures Q.Of(p, Past(s.closed)) == s.io.yielded[p]
    ensures Undisturbed(s.closed) ==> Q.Of(p, Flat(EndsOf(s.closed))) == RealOnes(s.io.yielded[p])
  {
    assert Q.Live(s.io) == {};
    Q.EndedIsComplete(s.io, p);
    PastIsPrefix(cfg, s, p);
    assert Q.Of(p, s.basket.entries) == [];
    if Undisturbed(s.closed) {
      UndisturbedIsSettled(s.closed);
      EndsCover(s.closed);
      RealsOfSource(p, Past(s.closed));
    }
  }

  /** A lane that ends has flushed all that every source yielded; without abandoned batches every real entry ended, for a reason. */
  lemma {:induction false} DrainIsComplete(cfg: Config, n: nat, run: seq<Action>, p: nat)
    requires Legal(cfg, Opening(n), run)
    requires var s := Final(cfg, Opening(n), run); s.phase.Done? && p < |s.io.yielded|
    ensures var s := Final(cfg, Opening(n), run);
            && Q.Of(p, Past(s.closed)) == s.io.yielded[p]
            && (Undisturbed(s.closed) ==> Q.Of(p, Flat(EndsOf(s.closed))) == RealOnes(s.io.yielded[p]))
            && AllCaused(cfg, Opening(n), run, EndsOf(s.closed), 0)
  {
    OpeningInv(cfg, n);
    RunKeepsInv(cfg, Opening(n), run);
    DoneIsComplete(cfg, Final(cfg, Opening(n), run), p);
    ClosedEndsAreCaused(cfg, n, run);
  }

  // ----- bytes and progress -----

  /** The lane's byte count is the cost of what was charged and not released, and overshoots by less than one entry. */
  lemma {:induction false} LaneBytesAreBounded(cfg: Config, n: nat, run: seq<Action>)
    requires Legal(cfg, Opening(n), run)
    ensures Q.BytesBounded(Limits(cfg), Final(cfg, Opening(n), run).io)
  {
    OpeningInv(cfg, n);
    RunKeepsInv(cfg, Opening(n), run);
    Q.InvBoundsBytes(Limits(cfg), Final(cfg, Opening(n), run).io);
  }

  /** The consumer can take a step of its own. */
  predicate ConsumerCanStep(cfg: Config, s: Lane) {
    || Enabled(cfg, s, Get)
    || Enabled(cfg, s, Absorb)
    || Enabled(cfg, s, Flush(true))
    || Enabled(cfg, s, Push(_ => Sink.Exhausted))
    || Enabled(cfg, s, Retry)
    || Enabled(cfg, s, Commit)
  }

  lemma {:induction false} DoneMeansClosed(cfg: Config, s: Lane, p: nat)
    requires Inv(cfg, s) && s.phase.Done? && p < |s.io.hands|
    ensures s.io.hands[p].Closed?
  {
    assert Q.Live(s.io) == {};
    assert p !in Q.Live(s.io);
    var i :| 0 <= i < |s.io.taken| && s.io.taken[i].Sentinel? && s.io.taken[i].source == p;
    assert Q.Flow(s.io)[i] == s.io.taken[i];
    assert Q.SourceOk(Q.Flow(s.io), p, s.io.hands[p], s.io.yielded[p]);
  }

  lemma {:induction false} BusyConsumerCanStep(cfg: Config, s: Lane)
    requires PhaseInv(s) && s.io.taker.Busy?
    ensures ConsumerCanStep(cfg, s)
  {
  }

  lemma {:induction false} BlockedIsNotAlone(cfg: Config, s: Lane, p: nat)
    requires Inv(cfg, s) && !s.phase.Dead? && !s.phase.Done? && Q.Blocked(Limits(cfg), s.io, p)
    ensures ConsumerCanStep(cfg, s) || exists o: nat :: o != p && Enabled(cfg, s, Produce(Q.Put(o)))
  {
    Q.BlockedMeansProgress(Limits(cfg), s.io, p);
    if s.io.taker.Busy? {
      BusyConsumerCanStep(cfg, s);
    } else if s.io.taker.Ready? && !Q.Enabled(Limits(cfg), s.io, Q.Take) {
      var o: nat :| o != p && Q.Enabled(Limits(cfg), s.io, Q.Put(o));
      assert Enabled(cfg, s, Produce(Q.Put(o)));
    }
  }

  /** Unless the consumer died in a commit, a blocked producer never waits alone. */
  lemma {:induction false} NoProducerIsStuck(cfg: Config, n: nat, run: seq<Action>, p: nat)
    requires Legal(cfg, Opening(n), run)
    requires var s := Final(cfg, Opening(n), run); !s.phase.Dead? && Q.Blocked(Limits(cfg), s.io, p)
    ensures var s := Final(cfg, Opening(n), run);
            ConsumerCanStep(cfg, s) || exists o: nat :: o != p && Enabled(cfg, s, Produce(Q.Put(o)))
  {
    OpeningInv(cfg, n);
    RunKeepsInv(cfg, Opening(n), run);
    var s := Final(cfg, Opening(n), run);
    if s.phase.Done? {
      DoneMeansClosed(cfg, s, p);
    } else {
      BlockedIsNotAlone(cfg, s, p);
    }
  }

  // ----- batches -----

  /** What the lines of a batch weigh. */
  function Weight(entries: seq<Event>): nat {
    if entries == [] then 0
    else
      var last := entries[|entries| - 1];
      Weight(entries[..|entries| - 1]) + (if IsReal(last) then last.value.line + ENTRY_OVERHEAD else 0)
  }

  /** Below both limits, so that one more entry is at most the first to reach one. */
  predicate Room(cfg: Config, entries: seq<Event>) {
    entries == [] || (|entries| < cfg.maxEntries && Weight(entries) < cfg.maxBytes)
  }

  /** A batch is flushed as soon as it reaches a limit, and a batch that waits has a deadline. */
  predicate BasketSize(cfg: Config, b: Basket, collecting: bool) {
    && b.bytes == Weight(b.entries)
    && (b.armed <==> b.entries != [])
    && (collecting ==> Room(cfg, b.entries))
    && (b.entries != [] ==> Room(cfg, b.entries[..|b.entries| - 1]))
  }

  predicate BatchSize(cfg: Config, s: Lane) {
    BasketSize(cfg, s.basket, s.phase.Collecting?)
  }

  lemma {:induction false} WeightAppend(entries: seq<Event>, e: Event)
    ensures Weight(entries + [e]) == Weight(entries) + (if IsReal(e) then e.value.line + ENTRY_OVERHEAD else 0)
  {
    assert (entries + [e])[..|entries|] == entries;
  }

  lemma {:induction false} AbsorbKeepsSize(cfg: Config, b: Basket, item: Event)
    requires BasketSize(cfg, b, true)
    ensures var (more, flush) := Absorbed(cfg, b, item); BasketSize(cfg, more, !flush)
  {
    WeightAppend(b.entries, item);
    assert (b.entries + [item])[..|b.entries|] == b.entries;
  }

  /** Only absorbing an item adds to a batch; a batch that is over starts from nothing. */
  lemma {:induction false} BasketAfter(cfg: Config, s: Lane, a: Action)
    requires Enabled(cfg, s, a) && !a.Absorb?
    ensures var t := Apply(cfg, s, a);
            || t.basket == Emptied(s.basket)
            || (t.basket == s.basket && (t.phase.Collecting? ==> s.phase.Collecting?))
  {
  }

  lemma {:induction false} StepKeepsSize(cfg: Config, s: Lane, a: Action)
    requires BatchSize(cfg, s) && Enabled(cfg, s, a)
    ensures BatchSize(cfg, Apply(cfg, s, a))
  {
    if a.Absorb? {
      AbsorbKeepsSize(cfg, s.basket, s.io.taker.item);
    } else {
      BasketAfter(cfg, s, a);
    }
  }

  lemma {:induction false} RunKeepsSize(cfg: Config, s: Lane, run: seq<Action>)
    requires BatchSize(cfg, s) && Legal(cfg, s, run)
    ensures BatchSize(cfg, Final(cfg, s, run))
    decreases |run|
  {
    if |run| > 0 {
      StepKeepsSize(cfg, s, run[0]);
      RunKeepsSize(cfg, Apply(cfg, s, run[0]), run[1..]);
    }
  }

  /** In every reachable state a batch exceeds a limit by its last entry at most, and a waiting batch has a deadline. */
  lemma {:induction false} BatchesAreBounded(cfg: Config, n: nat, run: seq<Action>)
    requires Legal(cfg, Opening(n), run)
    ensures BatchSize(cfg, Final(cfg, Opening(n), run))
  {
    RunKeepsSize(cfg, Opening(n), run);
  }
}
