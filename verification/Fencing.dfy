/**
 Active-passive replicas that share a lease file and a checkpoint file: the file-lease protocol with every
 commit and delete fenced by `is_leader` and by the epoch of the acquisition (src/sf2loki/app.py:937-968).
 */
module Fencing {
  import opened Options
  import L = FileLease
  import F = FileStore

  /** `landed` records, for every write that reached the document, the acquisition it was made under. */
  datatype Cluster = Cluster(lease: L.System, doc: F.Doc, landed: seq<L.Acquisition>)

  datatype Action = Coordinate(step: L.Action) | Store(who: L.Holder, op: F.Op)

  predicate Enabled(cfg: L.Config, c: Cluster, a: Action) {
    match a
    case Coordinate(step) => L.Enabled(cfg, c.lease, step)
    case Store(who, _) => who in c.lease.replicas
  }

  function Apply(cfg: L.Config, c: Cluster, a: Action): Cluster
    requires Enabled(cfg, c, a)
  {
    match a
    case Coordinate(step) => c.(lease := L.Apply(cfg, c.lease, step))
    case Store(who, op) =>
      var r := c.lease.replicas[who];
      var attempt := F.Attempt(op, Some(r.epoch));
      if !r.isLeader then c
      else c.(doc := F.Step(c.doc, attempt),
              landed := if F.Lands(c.doc, attempt) then c.landed + [L.Acquisition(who, r.epoch)] else c.landed)
  }

  predicate Legal(cfg: L.Config, c: Cluster, run: seq<Action>)
    decreases |run|
  {
    run == [] || (Enabled(cfg, c, run[0]) && Legal(cfg, Apply(cfg, c, run[0]), run[1..]))
  }

  predicate AllDisciplined(cfg: L.Config, c: Cluster, run: seq<Action>)
    requires Legal(cfg, c, run)
    decreases |run|
  {
    run == [] || (&& (run[0].Coordinate? ==> L.Disciplined(cfg, c.lease, run[0].step))
                  && AllDisciplined(cfg, Apply(cfg, c, run[0]), run[1..]))
  }

  function Final(cfg: L.Config, c: Cluster, run: seq<Action>): Cluster
    requires Legal(cfg, c, run)
    decreases |run|
  {
    if run == [] then c else Final(cfg, Apply(cfg, c, run[0]), run[1..])
  }

  predicate LeadersConfirmed(s: L.System) {
    forall h :: h in s.replicas && s.replicas[h].isLeader ==> L.Acquisition(h, s.replicas[h].epoch) in s.confirmed
  }

  predicate Ordered(landed: seq<L.Acquisition>) {
    forall i, j :: 0 <= i <= j < |landed| ==> landed[i].epoch <= landed[j].epoch
  }

  predicate Inv(cfg: L.Config, c: Cluster) {
    && L.Inv(cfg, c.lease)
    && LeadersConfirmed(c.lease)
    && Ordered(c.landed)
    && (c.landed != [] ==> c.doc.epoch == Some(c.landed[|c.landed| - 1].epoch))
    && forall i :: 0 <= i < |c.landed| ==> c.landed[i] in c.lease.confirmed
  }

  /** A replica becomes leader only by confirming, and keeps the epoch it confirmed for as long as it leads. */
  lemma {:induction false} LeadershipIsConfirmed(cfg: L.Config, s: L.System, a: L.Action)
    requires L.Inv(cfg, s) && L.Enabled(cfg, s, a) && LeadersConfirmed(s)
    ensures LeadersConfirmed(L.Apply(cfg, s, a))
    ensures forall x :: x in s.confirmed ==> x in L.Apply(cfg, s, a).confirmed
  {
    var t := L.Apply(cfg, s, a);
    forall h | h in t.replicas && t.replicas[h].isLeader
      ensures L.Acquisition(h, t.replicas[h].epoch) in t.confirmed
    {
      assert h in s.replicas ==> L.ReplicaInv(cfg, s, h, s.replicas[h]);
    }
  }

  lemma {:induction false} StepKeepsInv(cfg: L.Config, c: Cluster, a: Action)
    requires Inv(cfg, c) && Enabled(cfg, c, a)
    requires a.Coordinate? ==> L.Disciplined(cfg, c.lease, a.step)
    ensures Inv(cfg, Apply(cfg, c, a))
  {
    if a.Coordinate? {
      L.StepKeepsInv(cfg, c.lease, a.step);
      LeadershipIsConfirmed(cfg, c.lease, a.step);
    } else {
      StoreKeepsInv(cfg, c, a);
    }
  }

  lemma {:induction false} StoreKeepsInv(cfg: L.Config, c: Cluster, a: Action)
    requires Inv(cfg, c) && Enabled(cfg, c, a) && !a.Coordinate?
    ensures Inv(cfg, Apply(cfg, c, a))
  {
  }

  lemma {:induction false} RunKeepsInv(cfg: L.Config, c: Cluster, run: seq<Action>)
    requires Inv(cfg, c) && Legal(cfg, c, run) && AllDisciplined(cfg, c, run)
    ensures Inv(cfg, Final(cfg, c, run))
    decreases |run|
  {
    if run != [] {
      StepKeepsInv(cfg, c, run[0]);
      RunKeepsInv(cfg, Apply(cfg, c, run[0]), run[1..]);
    }
  }

  /** An acquisition by its place in the order of confirmation. */
  predicate Owns(c: Cluster, k: nat, i: nat) {
    k < |c.lease.confirmed| && i < |c.landed| && c.lease.confirmed[k] == c.landed[i]
  }

  /**
   From any document and any lease, the writes that landed form contiguous runs, each owned by exactly one
   acquisition, and the runs follow the order in which the acquisitions were confirmed.
   */
  lemma {:induction false} LandedWritesFormRuns(cfg: L.Config, c: Cluster, run: seq<Action>)
    requires cfg.Valid() && L.Init(cfg, c.lease) && c.landed == []
    requires Legal(cfg, c, run) && AllDisciplined(cfg, c, run)
    ensures var e := Final(cfg, c, run);
            && (forall i :: 0 <= i < |e.landed| ==> e.landed[i] in e.lease.confirmed)
            && (forall i, j, k, m :: 0 <= i <= j && Owns(e, k, i) && Owns(e, m, j) ==> k <= m)
  {
    L.InitInv(cfg, c.lease);
    RunKeepsInv(cfg, c, run);
    var e := Final(cfg, c, run);
    var log := e.lease.confirmed;
    assert L.Increasing(log);
    forall i, j, k, m | 0 <= i <= j && Owns(e, k, i) && Owns(e, m, j)
      ensures k <= m
    {
      assert e.landed[i].epoch <= e.landed[j].epoch;
    }
  }

  /** As long as nothing has landed the document is the one from the start. */
  lemma {:induction false} NothingLandedNothingChanged(cfg: L.Config, c: Cluster, run: seq<Action>)
    requires Legal(cfg, c, run)
    ensures |c.landed| <= |Final(cfg, c, run).landed|
    ensures Final(cfg, c, run).landed == [] ==> Final(cfg, c, run).doc == c.doc
    decreases |run|
  {
    if run != [] {
      NothingLandedNothingChanged(cfg, Apply(cfg, c, run[0]), run[1..]);
    }
  }

  /** The replica leads under the epoch confirmed last. */
  predicate Newest(s: L.System, who: L.Holder) {
    && who in s.replicas && s.replicas[who].isLeader
    && s.confirmed != [] && s.replicas[who].epoch == s.confirmed[|s.confirmed| - 1].epoch
  }

  /**
   The leader confirmed last is heard: its commit or delete reaches the document, unless there is nothing to delete or
   the document carried a greater epoch from the start and nothing has landed since.
   */
  lemma {:induction false} NewestLeaderIsHeard(cfg: L.Config, c: Cluster, run: seq<Action>, who: L.Holder, op: F.Op)
    requires cfg.Valid() && L.Init(cfg, c.lease) && c.landed == []
    requires Legal(cfg, c, run) && AllDisciplined(cfg, c, run) && Newest(Final(cfg, c, run).lease, who)
    ensures var e := Final(cfg, c, run);
            var epoch := e.lease.replicas[who].epoch;
            var t := Apply(cfg, e, Store(who, op));
            var heard := F.Writes(e.doc, op) && !(e.landed == [] && F.Exceeds(c.doc.epoch, epoch));
            && t.landed == (if heard then e.landed + [L.Acquisition(who, epoch)] else e.landed)
            && (heard ==> t.doc.epoch == Some(epoch) && forall key :: F.Touches(op, key) ==> F.Value(t.doc, key) == F.Written(op, key))
            && (!heard ==> t.doc == e.doc)
  {
    L.InitInv(cfg, c.lease);
    RunKeepsInv(cfg, c, run);
    NothingLandedNothingChanged(cfg, c, run);
    NewestIsNotStale(cfg, Final(cfg, c, run), who);
  }

  lemma {:induction false} NewestIsNotStale(cfg: L.Config, e: Cluster, who: L.Holder)
    requires Inv(cfg, e) && Newest(e.lease, who)
    ensures F.Stale(e.doc, Some(e.lease.replicas[who].epoch)) ==> e.landed == []
  {
    if e.landed != [] {
      assert e.landed[|e.landed| - 1] in e.lease.confirmed;
      assert L.Increasing(e.lease.confirmed);
    }
  }
}
