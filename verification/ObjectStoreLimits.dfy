/**
 Why a GCS load asks for the generation before the body (src/sf2loki/state/gcs_store.py, `_ensure_loaded`): the same
 store with the two requests swapped loses updates.
 */
module ObjectStoreLimits {
  import opened Options
  import opened ObjectStore

  /** The system, and the bodies fetched that still wait for their generation. */
  datatype BodyFirst = BodyFirst(base: System, fetched: map<Instance, Doc>)

  /** All steps of the store except its own load, and the swapped load. */
  datatype Step = Other(action: Action) | FetchBody(who: Instance) | FetchGeneration(who: Instance)

  predicate CanStep(s: BodyFirst, a: Step) {
    match a
    case Other(action) => Enabled(s.base, action) && !action.GetGeneration?
    case FetchBody(who) =>
      who in s.base.clients && s.base.clients[who].phase.Idle? && s.base.clients[who].cache.None? && s.base.server.stored.Present?
    case FetchGeneration(who) => who in s.fetched && who in s.base.clients && s.base.clients[who].phase.Idle?
  }

  function After(s: BodyFirst, a: Step): BodyFirst
    requires CanStep(s, a)
  {
    match a
    case Other(action) => s.(base := Apply(s.base, action))
    case FetchBody(who) => s.(fetched := s.fetched[who := s.base.server.stored.doc])
    case FetchGeneration(who) =>
      BodyFirst(Move(s.base, who, Client(Some(s.fetched[who]), s.base.server.Current(), Idle)), s.fetched - {who})
  }

  predicate LegalRun(s: BodyFirst, run: seq<Step>)
    decreases |run|
  {
    run == [] || (CanStep(s, run[0]) && LegalRun(After(s, run[0]), run[1..]))
  }

  function End(s: BodyFirst, run: seq<Step>): BodyFirst
    requires LegalRun(s, run)
    decreases |run|
  {
    if run == [] then s else End(After(s, run[0]), run[1..])
  }

  ghost predicate Reaches(s: BodyFirst, t: BodyFirst) {
    exists run :: LegalRun(s, run) && End(s, run) == t
  }

  lemma {:induction false} Join(s: BodyFirst, run: seq<Step>, a: Step)
    requires LegalRun(s, run) && CanStep(End(s, run), a)
    ensures LegalRun(s, run + [a]) && End(s, run + [a]) == After(End(s, run), a)
    decreases |run|
  {
    if run == [] {
      assert run + [a] == [a] && [a][1..] == [];
      assert LegalRun(After(s, a), []);
    } else {
      Join(After(s, run[0]), run[1..], a);
      assert (run + [a])[1..] == run[1..] + [a];
    }
  }

  lemma {:induction false} Then(s: BodyFirst, t: BodyFirst, a: Step)
    requires Reaches(s, t) && CanStep(t, a)
    ensures Reaches(s, After(t, a))
  {
    var run :| LegalRun(s, run) && End(s, run) == t;
    Join(s, run, a);
  }

  /** An instance has fetched the body and nothing else. */
  predicate HasBody(s: BodyFirst, who: Instance, doc: Doc) {
    who in s.fetched && s.fetched[who] == doc && who in s.base.clients && s.base.clients[who].phase.Idle?
  }

  predicate Stores(s: BodyFirst, doc: Doc, log: seq<Update>) {
    s.base.backend.Gcs? && s.base.server.stored.Present? && s.base.server.stored.doc == doc && s.base.server.log == log
  }

  /** It asks for the generation and sends an upload that adds `items`. */
  lemma {:induction false} CommitStarts(s0: BodyFirst, s: BodyFirst, who: Instance, items: Doc) returns (t: BodyFirst, put: Put)
    requires Reaches(s0, s) && s.base.server.stored.Present? && exists doc :: HasBody(s, who, doc)
    ensures Reaches(s0, t) && put in t.base.puts && put.condition == s.base.server.Current()
    ensures put.update == Merge(items) && put.body == s.fetched[who] + items
    ensures t.base.server == s.base.server && t.base.backend == s.base.backend
    ensures forall i, doc :: i != who && HasBody(s, i, doc) ==> HasBody(t, i, doc)
  {
    var s1 := After(s, FetchGeneration(who));
    Then(s0, s, FetchGeneration(who));
    put := NewPut(s1.base, who, s1.base.clients[who], Merge(items));
    t := After(s1, Other(BeginPut(who, Merge(items))));
    Then(s0, s1, Other(BeginPut(who, Merge(items))));
  }

  /** The upload lands: it is conditioned on the current generation. */
  lemma {:induction false} CommitLands(s0: BodyFirst, s: BodyFirst, who: Instance, items: Doc, token: Token, doc: Doc, log: seq<Update>) returns (t: BodyFirst)
    requires Reaches(s0, s) && HasBody(s, who, doc) && token !in s.base.server.issued
    requires s.base.backend.Gcs? && s.base.server.stored.Present? && s.base.server.log == log
    ensures Reaches(s0, t) && Stores(t, doc + items, log + [Merge(items)])
    ensures t.base.server.issued.Keys == s.base.server.issued.Keys + {token}
    ensures forall i, d :: i != who && HasBody(s, i, d) ==> HasBody(t, i, d)
  {
    var s1, put := CommitStarts(s0, s, who, items);
    t := After(s1, Other(Lands(put, token)));
    Then(s0, s1, Other(Lands(put, token)));
  }

  /** Two instances that have just started, and an object that holds `doc`. */
  function Two(a: Instance, b: Instance, doc: Doc): BodyFirst {
    BodyFirst(System(Gcs, Server(Present(doc, 1), map[1 := doc], []), map[a := FRESH, b := FRESH], {}, {}, 0), map[])
  }

  lemma {:induction false} BothFetch(a: Instance, b: Instance, doc: Doc) returns (t: BodyFirst)
    requires a != b
    ensures Reaches(Two(a, b, doc), t) && Stores(t, doc, []) && t.base.server.issued.Keys == {1}
    ensures HasBody(t, a, doc) && HasBody(t, b, doc)
  {
    var s := Two(a, b, doc);
    assert Reaches(s, s) by {
      assert LegalRun(s, []) && End(s, []) == s;
    }
    var s1 := After(s, FetchBody(a));
    Then(s, s, FetchBody(a));
    t := After(s1, FetchBody(b));
    Then(s, s1, FetchBody(b));
  }

  /** Both fetch the body, one commits `first`, then the other commits `second`: both land, and `first` is gone. */
  lemma {:induction false} BodyFirstLosesUpdates(a: Instance, b: Instance, doc: Doc, first: Doc, second: Doc) returns (t: BodyFirst)
    requires a != b
    ensures Init(Two(a, b, doc).base) && Reaches(Two(a, b, doc), t)
    ensures Stores(t, doc + second, [Merge(first), Merge(second)])
    ensures Replay(doc, t.base.server.log) == doc + first + second
  {
    var s0 := Two(a, b, doc);
    var s := BothFetch(a, b, doc);
    var s1 := CommitLands(s0, s, b, first, 2, doc, []);
    t := CommitLands(s0, s1, a, second, 3, doc, [Merge(first)]);
    BothReplay(doc, first, second);
    assert [] + [Merge(first)] == [Merge(first)] && [Merge(first)] + [Merge(second)] == [Merge(first), Merge(second)];
  }

  lemma {:induction false} BothReplay(doc: Doc, first: Doc, second: Doc)
    ensures Replay(doc, [Merge(first), Merge(second)]) == doc + first + second
  {
    ReplayOneMore(doc, [], Merge(first));
    ReplayOneMore(doc, [Merge(first)], Merge(second));
    assert [] + [Merge(first)] == [Merge(first)] && [Merge(first)] + [Merge(second)] == [Merge(first), Merge(second)];
  }

  /** What the last run keeps of the first commit: exactly the keys that the document or the second commit carry alike. */
  lemma {:induction false} KeptExactly(doc: Doc, first: Doc, second: Doc)
    ensures doc + second == doc + first + second
            <==> forall key :: key in first && key !in second ==> key in doc && doc[key] == first[key]
  {
    var lossy, full := doc + second, doc + first + second;
    if forall key :: key in first && key !in second ==> key in doc && doc[key] == first[key] {
      assert lossy.Keys == full.Keys;
      assert forall key :: key in full ==> lossy[key] == full[key];
    } else {
      var key :| key in first && key !in second && !(key in doc && doc[key] == first[key]);
      assert full[key] == first[key];
      assert key !in lossy || lossy[key] == doc[key];
    }
  }

  /** A document read before its token is sound under it exactly when it is still the stored one. */
  lemma {:induction false} LateTokenIsSoundExactly(s: System, doc: Doc)
    requires ServerInv(s.server)
    ensures Sound(s, s.server.Current(), doc) <==> doc == s.server.Content()
  {
  }
}
