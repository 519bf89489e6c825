/**
 A queue bounded both by length and by bytes, with any number of producers and one taker. The lanes of the pipeline
 (src/sf2loki/app.py) and the Pub/Sub bridge (src/sf2loki/sources/pubsub_source.py) are both built on it.

 Every action runs from one `await` to the next. A producer charges a value's cost before it puts the value, sleeping
 while the bytes are at or over the budget; the taker returns the cost and wakes all sleepers. A value that is free, or
 any value when the budget is off, has cost 0.
 */
module BoundedQueue {
  datatype Item<T> = Data(source: nat, value: T, cost: nat) | Sentinel(source: nat)

  datatype Hand<T> =
    | Fetching
    | Charging(value: T, cost: nat)
    | Sleeping(value: T, cost: nat)
    | Putting(value: T, cost: nat)
    | Closing
    | Closed

  /** `Busy` while the taker works on what it took, `Gone` once it has returned. */
  datatype Taker<T> = Ready | Holding(item: Item<T>) | Busy | Gone

  /** `yielded` is what each source produced so far and `taken` what has left the queue, both in order. */
  datatype Queue<T> = Queue(items: seq<Item<T>>, bytes: int, hands: seq<Hand<T>>, taker: Taker<T>,
                            yielded: seq<seq<T>>, taken: seq<Item<T>>)

  /** No limit on length when `maxsize` is not positive, none on bytes when `budget` is not; no cost exceeds `most`. */
  datatype Limits = Limits(maxsize: int, budget: int, most: nat)

  datatype Action<T> =
    | Yield(p: nat, value: T, cost: nat)
    | Close(p: nat)
    | Charge(p: nat)
    | Put(p: nat)
    | PutSentinel(p: nat)
    | Spawn(p: nat)
    | Take
    | Release(next: Taker<T>)
    | Turn(next: Taker<T>)

  predicate Full<T>(l: Limits, q: Queue<T>) {
    l.maxsize > 0 && |q.items| >= l.maxsize
  }

  predicate Enabled<T>(l: Limits, q: Queue<T>, a: Action<T>) {
    match a
    case Yield(p, _, cost) =>
      p < |q.hands| && p < |q.yielded| && q.hands[p].Fetching? && cost <= l.most && (l.budget <= 0 ==> cost == 0)
    case Close(p) => p < |q.hands| && q.hands[p].Fetching?
    case Charge(p) => p < |q.hands| && q.hands[p].Charging?
    case Put(p) => p < |q.hands| && q.hands[p].Putting? && !Full(l, q)
    case PutSentinel(p) => p < |q.hands| && q.hands[p].Closing? && !Full(l, q)
    case Spawn(p) => p < |q.hands| && q.hands[p].Fetching?
    case Take => q.taker.Ready? && q.items != []
    case Release(next) => q.taker.Holding? && !next.Holding?
    case Turn(next) => (q.taker.Busy? || q.taker.Ready?) && !next.Holding?
  }

  function Cost<T>(item: Item<T>): nat {
    if item.Data? then item.cost else 0
  }

  function Awake<T>(h: Hand<T>): Hand<T> {
    if h.Sleeping? then Charging(h.value, h.cost) else h
  }

  function Woken<T>(hands: seq<Hand<T>>): seq<Hand<T>> {
    if hands == [] then [] else Woken(hands[..|hands| - 1]) + [Awake(hands[|hands| - 1])]
  }

  /** Sleepers wake to try again; nobody else changes. */
  lemma {:induction false} WokenSpec<T>(hands: seq<Hand<T>>)
    ensures |Woken(hands)| == |hands|
    ensures forall i :: 0 <= i < |hands| ==> Woken(hands)[i] == Awake(hands[i])
  {
    if hands != [] {
      WokenSpec(hands[..|hands| - 1]);
    }
  }

  function Apply<T>(l: Limits, q: Queue<T>, a: Action<T>): Queue<T>
    requires Enabled(l, q, a)
  {
    match a
    case Yield(p, value, cost) =>
      q.(hands := q.hands[p := Charging(value, cost)], yielded := q.yielded[p := q.yielded[p] + [value]])
    case Close(p) => q.(hands := q.hands[p := Closing])
    case Charge(p) =>
      var h := q.hands[p];
      if h.cost == 0 then q.(hands := q.hands[p := Putting(h.value, 0)])
      else if q.bytes < l.budget then q.(bytes := q.bytes + h.cost, hands := q.hands[p := Putting(h.value, h.cost)])
      else q.(hands := q.hands[p := Sleeping(h.value, h.cost)])
    case Put(p) =>
      var h := q.hands[p];
      q.(items := q.items + [Data(p, h.value, h.cost)], hands := q.hands[p := Fetching])
    case PutSentinel(p) => q.(items := q.items + [Sentinel(p)], hands := q.hands[p := Closed])
    case Spawn(_) => q.(hands := q.hands + [Fetching], yielded := q.yielded + [[]])
    case Take => q.(items := q.items[1..], taker := Holding(q.items[0]))
    case Release(next) =>
      var cost := Cost(q.taker.item);
      q.(bytes := q.bytes - cost, hands := if cost > 0 then Woken(q.hands) else q.hands, taker := next,
         taken := q.taken + [q.taker.item])
    case Turn(next) => q.(taker := next)
  }

  // ----- bytes -----

  function Total<T>(items: seq<Item<T>>): nat {
    if items == [] then 0 else Cost(items[0]) + Total(items[1..])
  }

  function HandCost<T>(h: Hand<T>): nat {
    if h.Putting? then h.cost else 0
  }

  function HandsTotal<T>(hands: seq<Hand<T>>): nat {
    if hands == [] then 0 else HandCost(hands[0]) + HandsTotal(hands[1..])
  }

  function TakerCost<T>(t: Taker<T>): nat {
    if t.Holding? then Cost(t.item) else 0
  }

  /** The summed cost of what has been charged and not returned. */
  function Outstanding<T>(q: Queue<T>): nat {
    HandsTotal(q.hands) + Total(q.items) + TakerCost(q.taker)
  }

  /** Values in hand cost no more than the limit; a sleeper has something to wait for. */
  predicate HandOk<T>(l: Limits, bytes: int, h: Hand<T>) {
    match h
    case Charging(_, cost) => cost <= l.most && (l.budget <= 0 ==> cost == 0)
    case Sleeping(_, cost) => cost <= l.most && l.budget > 0 && bytes >= l.budget
    case _ => true
  }

  predicate ByteInv<T>(l: Limits, q: Queue<T>) {
    && q.bytes == Outstanding(q)
    && (if l.budget > 0 then q.bytes <= l.budget - 1 + l.most else q.bytes == 0)
    && forall p :: 0 <= p < |q.hands| ==> HandOk(l, q.bytes, q.hands[p])
  }

  /** The byte count is the cost of what is charged and not returned, and overshoots the budget by less than one value. */
  predicate BytesBounded<T>(l: Limits, q: Queue<T>) {
    && q.bytes == HandsTotal(q.hands) + Total(q.items) + TakerCost(q.taker)
    && 0 <= q.bytes
    && (if l.budget > 0 then q.bytes <= l.budget - 1 + l.most else q.bytes == 0)
  }

  lemma {:induction false} TotalAppend<T>(items: seq<Item<T>>, item: Item<T>)
    ensures Total(items + [item]) == Total(items) + Cost(item)
  {
    if items != [] {
      TotalAppend(items[1..], item);
      assert (items + [item])[1..] == items[1..] + [item];
    }
  }

  lemma {:induction false} HandsTotalUpdate<T>(hands: seq<Hand<T>>, p: nat, h: Hand<T>)
    requires p < |hands|
    ensures HandsTotal(hands[p := h]) == HandsTotal(hands) - HandCost(hands[p]) + HandCost(h)
  {
    if p == 0 {
      assert hands[p := h][1..] == hands[1..];
    } else {
      HandsTotalUpdate(hands[1..], p - 1, h);
      assert hands[p := h][1..] == hands[1..][p - 1 := h];
    }
  }

  lemma {:induction false} HandsTotalAppend<T>(hands: seq<Hand<T>>, h: Hand<T>)
    ensures HandsTotal(hands + [h]) == HandsTotal(hands) + HandCost(h)
  {
    if hands != [] {
      HandsTotalAppend(hands[1..], h);
      assert (hands + [h])[1..] == hands[1..] + [h];
    }
  }

  lemma {:induction false} WakingMovesNothing<T>(hands: seq<Hand<T>>)
    ensures HandsTotal(Woken(hands)) == HandsTotal(hands)
  {
    if hands != [] {
      var front, last := hands[..|hands| - 1], hands[|hands| - 1];
      WakingMovesNothing(front);
      HandsTotalAppend(front, last);
      HandsTotalAppend(Woken(front), Awake(last));
      assert hands == front + [last];
    }
  }

  lemma {:induction false} HandKeepsBytes<T>(l: Limits, q: Queue<T>, a: Action<T>)
    requires ByteInv(l, q) && Enabled(l, q, a) && (a.Yield? || a.Close? || a.Charge?)
    ensures ByteInv(l, Apply(l, q, a))
  {
    HandsTotalUpdate(q.hands, a.p, Apply(l, q, a).hands[a.p]);
  }

  lemma {:induction false} PutKeepsBytes<T>(l: Limits, q: Queue<T>, a: Action<T>)
    requires ByteInv(l, q) && Enabled(l, q, a) && (a.Put? || a.PutSentinel?)
    ensures ByteInv(l, Apply(l, q, a))
  {
    var after := Apply(l, q, a);
    HandsTotalUpdate(q.hands, a.p, after.hands[a.p]);
    TotalAppend(q.items, after.items[|q.items|]);
  }

  lemma {:induction false} ReleaseKeepsBytes<T>(l: Limits, q: Queue<T>, a: Action<T>)
    requires ByteInv(l, q) && Enabled(l, q, a) && a.Release?
    ensures ByteInv(l, Apply(l, q, a))
  {
    WakingMovesNothing(q.hands);
    WokenSpec(q.hands);
    assert l.budget <= 0 ==> Cost(q.taker.item) == 0;
  }

  lemma {:induction false} StepKeepsBytes<T>(l: Limits, q: Queue<T>, a: Action<T>)
    requires ByteInv(l, q) && Enabled(l, q, a)
    ensures ByteInv(l, Apply(l, q, a))
  {
    match a
    case Yield(_, _, _) => HandKeepsBytes(l, q, a);
    case Close(_) => HandKeepsBytes(l, q, a);
    case Charge(_) => HandKeepsBytes(l, q, a);
    case Put(_) => PutKeepsBytes(l, q, a);
    case PutSentinel(_) => PutKeepsBytes(l, q, a);
    case Spawn(_) =>
      var idle: Hand<T> := Fetching;
      HandsTotalAppend(q.hands, idle);
    case Release(_) => ReleaseKeepsBytes(l, q, a);
    case Take => assert q.items == [q.items[0]] + q.items[1..];
    case _ =>
  }

  // ----- order -----

  /** The values of source `p` among the items, in order. */
  function Of<T>(p: nat, items: seq<Item<T>>): seq<T> {
    if items == [] then []
    else
      var last := items[|items| - 1];
      Of(p, items[..|items| - 1]) + (if last.Data? && last.source == p then [last.value] else [])
  }

  function Held<T>(h: Hand<T>): seq<T> {
    if h.Charging? || h.Sleeping? || h.Putting? then [h.value] else []
  }

  /** Everything that has entered the queue, in order. */
  function Flow<T>(q: Queue<T>): seq<Item<T>> {
    q.taken + (if q.taker.Holding? then [q.taker.item] else []) + q.items
  }

  predicate Ended<T>(items: seq<Item<T>>, p: nat) {
    exists i :: 0 <= i < |items| && items[i].Sentinel? && items[i].source == p
  }

  /** Nothing of a source follows its sentinel. */
  predicate Sealed<T>(items: seq<Item<T>>) {
    forall i, j :: 0 <= i < j < |items| && items[i].Sentinel? ==> items[j].source != items[i].source
  }

  /** How one source stands: its sentinel comes when it closes, and what entered plus what is in hand is what it yielded. */
  ghost predicate SourceOk<T>(flow: seq<Item<T>>, p: nat, h: Hand<T>, yielded: seq<T>) {
    && h.Closed? == Ended(flow, p)
    && Of(p, flow) + Held(h) == yielded
  }

  ghost predicate FlowOk<T>(flow: seq<Item<T>>, hands: seq<Hand<T>>, yielded: seq<seq<T>>) {
    && |yielded| == |hands|
    && Sealed(flow)
    && (forall i :: 0 <= i < |flow| ==> flow[i].source < |hands|)
    && (forall p: nat :: p < |hands| ==> SourceOk(flow, p, hands[p], yielded[p]))
  }

  ghost predicate FlowInv<T>(q: Queue<T>) {
    FlowOk(Flow(q), q.hands, q.yielded)
  }

  lemma {:induction false} OfConcat<T>(p: nat, a: seq<Item<T>>, b: seq<Item<T>>)
    ensures Of(p, a + b) == Of(p, a) + Of(p, b)
  {
    if b == [] {
      assert a + b == a;
    } else {
      var front := b[..|b| - 1];
      OfConcat(p, a, front);
      assert (a + b)[..|a + b| - 1] == a + front;
    }
  }

  lemma {:induction false} OfNothing<T>(p: nat, items: seq<Item<T>>)
    requires forall i :: 0 <= i < |items| ==> items[i].source != p
    ensures Of(p, items) == []
  {
    if items != [] {
      OfNothing(p, items[..|items| - 1]);
    }
  }

  lemma {:induction false} EndedAppend<T>(flow: seq<Item<T>>, item: Item<T>, p: nat)
    ensures Ended(flow + [item], p) <==> Ended(flow, p) || (item.Sentinel? && item.source == p)
  {
    var longer := flow + [item];
    assert longer[|flow|] == item;
    if Ended(flow, p) {
      var i :| 0 <= i < |flow| && flow[i].Sentinel? && flow[i].source == p;
      assert longer[i] == flow[i];
    }
  }

  lemma {:induction false} OfAppend<T>(p: nat, flow: seq<Item<T>>, item: Item<T>)
    ensures Of(p, flow + [item]) == Of(p, flow) + (if item.Data? && item.source == p then [item.value] else [])
  {
    assert (flow + [item])[..|flow|] == flow;
  }

  lemma {:induction false} SealedAppend<T>(flow: seq<Item<T>>, item: Item<T>)
    requires Sealed(flow) && !Ended(flow, item.source)
    ensures Sealed(flow + [item])
  {
    var longer := flow + [item];
    forall i, j | 0 <= i < j < |longer| && longer[i].Sentinel?
      ensures longer[j].source != longer[i].source
    {
      assert longer[i] == flow[i];
    }
  }

  /** A source puts what it holds. */
  lemma {:induction false} PutKeepsFlow<T>(flow: seq<Item<T>>, hands: seq<Hand<T>>, yielded: seq<seq<T>>, item: Item<T>, after: Hand<T>)
    requires FlowOk(flow, hands, yielded) && item.source < |hands|
    requires !hands[item.source].Closed? && after.Closed? == item.Sentinel? && Held(after) == []
    requires Held(hands[item.source]) == if item.Data? then [item.value] else []
    ensures FlowOk(flow + [item], hands[item.source := after], yielded)
  {
    var o := item.source;
    assert SourceOk(flow, o, hands[o], yielded[o]);
    SealedAppend(flow, item);
    forall p: nat | p < |hands|
      ensures SourceOk(flow + [item], p, hands[o := after][p], yielded[p])
    {
      assert SourceOk(flow, p, hands[p], yielded[p]);
      EndedAppend(flow, item, p);
      OfAppend(p, flow, item);
    }
  }

  lemma {:induction false} YieldKeepsFlow<T>(flow: seq<Item<T>>, hands: seq<Hand<T>>, yielded: seq<seq<T>>, o: nat, value: T, after: Hand<T>)
    requires FlowOk(flow, hands, yielded) && o < |hands| && hands[o].Fetching? && !after.Closed? && Held(after) == [value]
    ensures FlowOk(flow, hands[o := after], yielded[o := yielded[o] + [value]])
  {
    assert SourceOk(flow, o, hands[o], yielded[o]);
  }

  lemma {:induction false} SpawnKeepsFlow<T>(flow: seq<Item<T>>, hands: seq<Hand<T>>, yielded: seq<seq<T>>)
    requires FlowOk(flow, hands, yielded)
    ensures FlowOk(flow, hands + [Fetching], yielded + [[]])
  {
    OfNothing(|hands|, flow);
    assert SourceOk(flow, |hands|, Fetching, []);
  }

  /** Hands that hold the same values keep the order. */
  lemma {:induction false} SameHeldKeepsFlow<T>(flow: seq<Item<T>>, hands: seq<Hand<T>>, yielded: seq<seq<T>>, after: seq<Hand<T>>)
    requires FlowOk(flow, hands, yielded) && |after| == |hands|
    requires forall p :: 0 <= p < |hands| ==> Held(after[p]) == Held(hands[p]) && after[p].Closed? == hands[p].Closed?
    ensures FlowOk(flow, after, yielded)
  {
    forall p: nat | p < |hands|
      ensures SourceOk(flow, p, after[p], yielded[p])
    {
      assert SourceOk(flow, p, hands[p], yielded[p]);
    }
  }

  /** Items enter the flow only by a put; taking and releasing move them along it. */
  lemma {:induction false} FlowAfter<T>(l: Limits, q: Queue<T>, a: Action<T>)
    requires Enabled(l, q, a)
    ensures Flow(Apply(l, q, a)) ==
            match a
            case Put(p) => Flow(q) + [Data(p, q.hands[p].value, q.hands[p].cost)]
            case PutSentinel(p) => Flow(q) + [Sentinel(p)]
            case _ => Flow(q)
  {
  }

  lemma {:induction false} HeldAfter<T>(l: Limits, q: Queue<T>, a: Action<T>)
    requires Enabled(l, q, a) && !a.Yield? && !a.Put? && !a.PutSentinel? && !a.Spawn?
    ensures var after := Apply(l, q, a);
            && after.yielded == q.yielded && |after.hands| == |q.hands|
            && forall p :: 0 <= p < |q.hands| ==> Held(after.hands[p]) == Held(q.hands[p]) && after.hands[p].Closed? == q.hands[p].Closed?
  {
    if a.Release? {
      WokenSpec(q.hands);
    }
  }

  lemma {:induction false} StepKeepsFlow<T>(l: Limits, q: Queue<T>, a: Action<T>)
    requires FlowInv(q) && Enabled(l, q, a)
    ensures FlowInv(Apply(l, q, a))
  {
    FlowAfter(l, q, a);
    match a
    case Yield(p, value, cost) => YieldKeepsFlow(Flow(q), q.hands, q.yielded, p, value, Charging(value, cost));
    case Put(p) => PutKeepsFlow(Flow(q), q.hands, q.yielded, Data(p, q.hands[p].value, q.hands[p].cost), Fetching);
    case PutSentinel(p) => PutKeepsFlow(Flow(q), q.hands, q.yielded, Sentinel(p), Closed);
    case Spawn(_) => SpawnKeepsFlow(Flow(q), q.hands, q.yielded);
    case _ =>
      HeldAfter(l, q, a);
      SameHeldKeepsFlow(Flow(q), q.hands, q.yielded, Apply(l, q, a).hands);
  }

  /** Sources whose sentinel has not been taken. */
  function Live<T>(q: Queue<T>): set<nat> {
    set p: nat | p < |q.hands| && !Ended(q.taken, p)
  }

  /** Once a source's sentinel is taken, all it yielded has been taken. */
  lemma {:induction false} EndedIsComplete<T>(q: Queue<T>, p: nat)
    requires FlowInv(q) && p < |q.hands| && p !in Live(q)
    ensures Of(p, q.taken) == q.yielded[p]
  {
    var i :| 0 <= i < |q.taken| && q.taken[i].Sentinel? && q.taken[i].source == p;
    var rest := Flow(q)[|q.taken|..];
    assert Flow(q) == q.taken + rest;
    assert Flow(q)[i] == q.taken[i];
    assert SourceOk(Flow(q), p, q.hands[p], q.yielded[p]);
    assert Ended(Flow(q), p);
    forall j | 0 <= j < |rest|
      ensures rest[j].source != p
    {
      assert rest[j] == Flow(q)[|q.taken| + j];
    }
    OfNothing(p, rest);
    OfConcat(p, q.taken, rest);
  }

  /** What has been taken of a source is a prefix of what it yielded. */
  lemma {:induction false} TakenIsPrefix<T>(q: Queue<T>, p: nat)
    requires FlowInv(q) && p < |q.hands|
    ensures Of(p, q.taken) <= q.yielded[p]
  {
    var rest := Flow(q)[|q.taken|..];
    assert Flow(q) == q.taken + rest;
    assert SourceOk(Flow(q), p, q.hands[p], q.yielded[p]);
    OfConcat(p, q.taken, rest);
  }

  /** Only the release of a sentinel ends a source, and a spawn begins one. */
  lemma {:induction false} LiveChanges<T>(l: Limits, q: Queue<T>, a: Action<T>)
    requires FlowInv(q) && Enabled(l, q, a)
    ensures var live := Live(Apply(l, q, a));
            if a.Spawn? then live == Live(q) + {|q.hands|} && |live| == |Live(q)| + 1
            else if a.Release? && q.taker.item.Sentinel? then
              q.taker.item.source in Live(q) && live == Live(q) - {q.taker.item.source} && |live| == |Live(q)| - 1
            else live == Live(q)
  {
    if a.Spawn? {
      SpawnLive(l, q, a);
    } else if a.Release? {
      ReleaseLive(l, q, a);
    } else {
      assert Apply(l, q, a).taken == q.taken && |Apply(l, q, a).hands| == |q.hands|;
    }
  }

  lemma {:induction false} SpawnLive<T>(l: Limits, q: Queue<T>, a: Action<T>)
    requires FlowInv(q) && Enabled(l, q, a) && a.Spawn?
    ensures var live := Live(Apply(l, q, a)); live == Live(q) + {|q.hands|} && |live| == |Live(q)| + 1
  {
    assert forall i :: 0 <= i < |q.taken| ==> q.taken[i] == Flow(q)[i];
    assert !Ended(q.taken, |q.hands|);
    assert Live(Apply(l, q, a)) == Live(q) + {|q.hands|};
    assert |q.hands| !in Live(q);
  }

  lemma {:induction false} ReleaseLive<T>(l: Limits, q: Queue<T>, a: Action<T>)
    requires FlowInv(q) && Enabled(l, q, a) && a.Release?
    ensures var live := Live(Apply(l, q, a));
            if q.taker.item.Sentinel? then
              q.taker.item.source in Live(q) && live == Live(q) - {q.taker.item.source} && |live| == |Live(q)| - 1
            else live == Live(q)
  {
    var item := q.taker.item;
    WokenSpec(q.hands);
    forall p: nat
      ensures Ended(q.taken + [item], p) <==> Ended(q.taken, p) || (item.Sentinel? && item.source == p)
    {
      EndedAppend(q.taken, item, p);
    }
    var after := Live(Apply(l, q, a));
    if item.Sentinel? {
      assert Flow(q)[|q.taken|] == item;
      assert forall i :: 0 <= i < |q.taken| ==> q.taken[i] == Flow(q)[i];
      assert !Ended(q.taken, item.source);
      assert after == Live(q) - {item.source};
    } else {
      assert after == Live(q);
    }
  }

  // ----- progress -----

  predicate Blocked<T>(l: Limits, q: Queue<T>, p: nat) {
    && p < |q.hands|
    && (q.hands[p].Sleeping? || ((q.hands[p].Putting? || q.hands[p].Closing?) && Full(l, q)))
  }

  lemma {:induction false} SomeHandPuts<T>(hands: seq<Hand<T>>) returns (p: nat)
    requires HandsTotal(hands) > 0
    ensures p < |hands| && hands[p].Putting? && hands[p].cost > 0
  {
    if HandCost(hands[0]) > 0 {
      p := 0;
    } else {
      p := SomeHandPuts(hands[1..]);
      p := p + 1;
    }
  }

  /** While a producer is blocked another producer can put, or the taker can take or release, or is at work. */
  lemma {:induction false} BlockedMeansProgress<T>(l: Limits, q: Queue<T>, p: nat)
    requires ByteInv(l, q) && Blocked(l, q, p) && !q.taker.Gone?
    ensures q.taker.Busy? || (q.taker.Ready? && Enabled(l, q, Take)) || (q.taker.Holding? && Enabled(l, q, Release(Ready)))
            || exists o: nat :: o != p && Enabled(l, q, Put(o))
  {
    if q.taker.Ready? && q.items == [] {
      assert q.hands[p].Sleeping?;
      var o := SomeHandPuts(q.hands);
      assert Enabled(l, q, Put(o));
    }
  }

  // ----- runs -----

  ghost predicate Inv<T>(l: Limits, q: Queue<T>) {
    ByteInv(l, q) && FlowInv(q)
  }

  function Opening<T>(n: nat): Queue<T> {
    Queue([], 0, seq(n, _ => Fetching), Ready, seq(n, _ => []), [])
  }

  lemma {:induction false} NothingInHand<T>(hands: seq<Hand<T>>)
    requires forall p :: 0 <= p < |hands| ==> hands[p].Fetching?
    ensures HandsTotal(hands) == 0
  {
    if hands != [] {
      NothingInHand(hands[1..]);
    }
  }

  lemma {:induction false} OpeningInv<T>(l: Limits, n: nat, q: Queue<T>)
    requires q == Opening(n)
    ensures Inv(l, q) && |Live(q)| == n
  {
    NothingInHand(q.hands);
    LiveAtOpening(q, n);
  }

  function Below(n: nat): (s: set<nat>)
    ensures |s| == n
    ensures forall p: nat :: p in s <==> p < n
  {
    if n == 0 then {} else Below(n - 1) + {n - 1}
  }

  lemma {:induction false} LiveAtOpening<T>(q: Queue<T>, n: nat)
    requires |q.hands| == n && q.taken == []
    ensures |Live(q)| == n
  {
    assert Live(q) == Below(n);
  }

  lemma {:induction false} StepKeepsInv<T>(l: Limits, q: Queue<T>, a: Action<T>)
    requires Inv(l, q) && Enabled(l, q, a)
    ensures Inv(l, Apply(l, q, a))
  {
    StepKeepsBytes(l, q, a);
    StepKeepsFlow(l, q, a);
  }

  lemma {:induction false} InvBoundsBytes<T>(l: Limits, q: Queue<T>)
    requires Inv(l, q)
    ensures BytesBounded(l, q)
  {
  }
}
