/** All lanes of a pipeline over one checkpoint store (src/sf2loki/app.py, `run`). */
module PipelineStore {
  import opened Options
  import opened Pipeline
  import opened PipelineCauses
  import opened PipelineSafety
  import Q = BoundedQueue

  datatype Pipe = Pipe(lanes: seq<Lane>, store: map<string, string>)

  /** One step of one lane. */
  datatype Step = Step(lane: nat, action: Action)

  /** The lane and the source within it that a key belongs to. */
  type Home = string -> (nat, nat)

  predicate Proper(home: Home, step: Step) {
    step.action.Produce? && step.action.step.Yield? ==> home(step.action.step.value.key) == (step.lane, step.action.step.p)
  }

  predicate CanStep(cfg: Config, home: Home, s: Pipe, step: Step) {
    step.lane < |s.lanes| && Enabled(cfg, s.lanes[step.lane], step.action) && Proper(home, step)
  }

  /** A commit writes the batch's tokens into the shared store. */
  function After(cfg: Config, home: Home, s: Pipe, step: Step): Pipe
    requires CanStep(cfg, home, s, step)
  {
    var lane := s.lanes[step.lane];
    Pipe(s.lanes[step.lane := Apply(cfg, lane, step.action)],
         if step.action.Commit? then s.store + LastTokens(lane.basket.entries) else s.store)
  }

  predicate KeysInv(home: Home, lane: Lane, i: nat) {
    forall p: nat, j :: p < |lane.io.yielded| && 0 <= j < |lane.io.yielded[p]| ==> home(lane.io.yielded[p][j].key) == (i, p)
  }

  /** The key's own lane has committed a token for it. */
  predicate CommittedBy(home: Home, s: Pipe, k: string) {
    home(k).0 < |s.lanes| && k in s.lanes[home(k).0].committed
  }

  /** The store holds, for a key, what the key's own lane committed, or else what it held from the start. */
  predicate KeyOk(home: Home, initial: map<string, string>, s: Pipe, k: string) {
    Held(s.store, k) == Held(if CommittedBy(home, s, k) then s.lanes[home(k).0].committed else initial, k)
  }

  function Held(store: map<string, string>, k: string): Option<string> {
    if k in store then Some(store[k]) else None
  }

  ghost predicate StoreInv(home: Home, initial: map<string, string>, s: Pipe) {
    forall k :: KeyOk(home, initial, s, k)
  }

  ghost predicate LaneOk(cfg: Config, home: Home, lane: Lane, i: nat) {
    Inv(cfg, lane) && KeysInv(home, lane, i)
  }

  ghost predicate PipeInv(cfg: Config, home: Home, initial: map<string, string>, s: Pipe) {
    && (forall i :: 0 <= i < |s.lanes| ==> LaneOk(cfg, home, s.lanes[i], i))
    && StoreInv(home, initial, s)
  }

  /** A lane's sources yield by `Yield` only. */
  lemma {:induction false} YieldedAfter(cfg: Config, lane: Lane, a: Action)
    requires Enabled(cfg, lane, a)
    ensures Apply(cfg, lane, a).io.yielded ==
            if a.Produce? && a.step.Yield? then lane.io.yielded[a.step.p := lane.io.yielded[a.step.p] + [a.step.value]]
            else lane.io.yielded
  {
  }

  lemma {:induction false} StepKeepsKeys(cfg: Config, home: Home, lane: Lane, step: Step)
    requires LaneOk(cfg, home, lane, step.lane) && Enabled(cfg, lane, step.action) && Proper(home, step)
    ensures KeysInv(home, Apply(cfg, lane, step.action), step.lane)
  {
    YieldedAfter(cfg, lane, step.action);
  }

  /** The tokens a lane is about to commit belong to the lane. */
  lemma {:induction false} TokensAreOfLane(cfg: Config, home: Home, lane: Lane, i: nat, k: string)
    requires LaneOk(cfg, home, lane, i) && k in LastTokens(lane.basket.entries)
    ensures home(k).0 == i
  {
    var j := KeyIsSettled(lane.basket.entries, k);
    BasketWasYielded(cfg, lane, j);
  }

  lemma {:induction false} CommittedAfter(cfg: Config, lane: Lane, a: Action)
    requires Enabled(cfg, lane, a)
    ensures Apply(cfg, lane, a).committed ==
            if a.Commit? then lane.committed + LastTokens(lane.basket.entries) else lane.committed
  {
  }

  /** A step that commits no token for the key leaves it alone. */
  lemma {:induction false} OtherKeyStays(cfg: Config, home: Home, initial: map<string, string>, s: Pipe, step: Step, k: string)
    requires CanStep(cfg, home, s, step) && KeyOk(home, initial, s, k)
    requires step.action.Commit? ==> k !in LastTokens(s.lanes[step.lane].basket.entries)
    ensures KeyOk(home, initial, After(cfg, home, s, step), k)
  {
    CommittedAfter(cfg, s.lanes[step.lane], step.action);
  }

  lemma {:induction false} CommittedKeyMoves(cfg: Config, home: Home, initial: map<string, string>, s: Pipe, step: Step, k: string)
    requires CanStep(cfg, home, s, step) && LaneOk(cfg, home, s.lanes[step.lane], step.lane)
    requires step.action.Commit? && k in LastTokens(s.lanes[step.lane].basket.entries)
    ensures KeyOk(home, initial, After(cfg, home, s, step), k)
  {
    CommittedAfter(cfg, s.lanes[step.lane], step.action);
    TokensAreOfLane(cfg, home, s.lanes[step.lane], step.lane, k);
  }

  lemma {:induction false} StepKeepsStore(cfg: Config, home: Home, initial: map<string, string>, s: Pipe, step: Step)
    requires PipeInv(cfg, home, initial, s) && CanStep(cfg, home, s, step)
    ensures StoreInv(home, initial, After(cfg, home, s, step))
  {
    assert LaneOk(cfg, home, s.lanes[step.lane], step.lane);
    forall k
      ensures KeyOk(home, initial, After(cfg, home, s, step), k)
    {
      assert KeyOk(home, initial, s, k);
      if step.action.Commit? && k in LastTokens(s.lanes[step.lane].basket.entries) {
        CommittedKeyMoves(cfg, home, initial, s, step, k);
      } else {
        OtherKeyStays(cfg, home, initial, s, step, k);
      }
    }
  }

  lemma {:induction false} StepKeepsPipe(cfg: Config, home: Home, initial: map<string, string>, s: Pipe, step: Step)
    requires PipeInv(cfg, home, initial, s) && CanStep(cfg, home, s, step)
    ensures PipeInv(cfg, home, initial, After(cfg, home, s, step))
  {
    assert LaneOk(cfg, home, s.lanes[step.lane], step.lane);
    StepKeepsInv(cfg, s.lanes[step.lane], step.action);
    StepKeepsKeys(cfg, home, s.lanes[step.lane], step);
    StepKeepsStore(cfg, home, initial, s, step);
  }

  predicate LegalPipe(cfg: Config, home: Home, s: Pipe, run: seq<Step>)
    decreases |run|
  {
    |run| == 0 || (CanStep(cfg, home, s, run[0]) && LegalPipe(cfg, home, After(cfg, home, s, run[0]), run[1..]))
  }

  function FinalPipe(cfg: Config, home: Home, s: Pipe, run: seq<Step>): Pipe
    requires LegalPipe(cfg, home, s, run)
    decreases |run|
  {
    if |run| == 0 then s else FinalPipe(cfg, home, After(cfg, home, s, run[0]), run[1..])
  }

  lemma {:induction false} RunKeepsPipe(cfg: Config, home: Home, initial: map<string, string>, s: Pipe, run: seq<Step>)
    requires PipeInv(cfg, home, initial, s) && LegalPipe(cfg, home, s, run)
    ensures PipeInv(cfg, home, initial, FinalPipe(cfg, home, s, run))
    decreases |run|
  {
    if |run| > 0 {
      StepKeepsPipe(cfg, home, initial, s, run[0]);
      RunKeepsPipe(cfg, home, initial, After(cfg, home, s, run[0]), run[1..]);
    }
  }

  // ----- reasons -----

  /** Some step of lane `i` in the run is a reason for `end`. */
  ghost predicate CausedInLane(cfg: Config, home: Home, s: Pipe, run: seq<Step>, i: nat, end: End)
    requires LegalPipe(cfg, home, s, run)
    decreases |run|
  {
    && |run| > 0
    && ((run[0].lane == i && Caused(s.lanes[i], run[0].action, end))
        || CausedInLane(cfg, home, After(cfg, home, s, run[0]), run[1..], i, end))
  }

  ghost predicate LaneCaused(cfg: Config, home: Home, s: Pipe, run: seq<Step>, i: nat, ends: seq<End>, n: nat)
    requires LegalPipe(cfg, home, s, run)
  {
    forall j :: n <= j < |ends| ==> CausedInLane(cfg, home, s, run, i, ends[j])
  }

  lemma {:induction false} LanesStay(cfg: Config, home: Home, s: Pipe, run: seq<Step>)
    requires LegalPipe(cfg, home, s, run)
    ensures |FinalPipe(cfg, home, s, run).lanes| == |s.lanes|
    decreases |run|
  {
    if |run| > 0 {
      LanesStay(cfg, home, After(cfg, home, s, run[0]), run[1..]);
    }
  }

  lemma {:induction false} LaneStepCauses(cfg: Config, home: Home, initial: map<string, string>, s: Pipe, step: Step, i: nat)
    requires PipeInv(cfg, home, initial, s) && CanStep(cfg, home, s, step) && i < |s.lanes|
    ensures var after := AllEnds(After(cfg, home, s, step).lanes[i]);
            && AllEnds(s.lanes[i]) <= after
            && forall j :: |AllEnds(s.lanes[i])| <= j < |after| ==> step.lane == i && Caused(s.lanes[i], step.action, after[j])
  {
    assert LaneOk(cfg, home, s.lanes[i], i);
    if step.lane == i {
      EveryStepCauses(cfg, s.lanes[i], step.action);
    }
  }

  /** In every lane of every run, every entry that ended did so for a reason. */
  lemma {:induction false} LaneEndsAreCaused(cfg: Config, home: Home, initial: map<string, string>, s: Pipe, run: seq<Step>, i: nat)
    requires PipeInv(cfg, home, initial, s) && LegalPipe(cfg, home, s, run) && i < |s.lanes|
    ensures i < |FinalPipe(cfg, home, s, run).lanes|
    ensures AllEnds(s.lanes[i]) <= AllEnds(FinalPipe(cfg, home, s, run).lanes[i])
    ensures LaneCaused(cfg, home, s, run, i, AllEnds(FinalPipe(cfg, home, s, run).lanes[i]), |AllEnds(s.lanes[i])|)
    decreases |run|
  {
    if |run| > 0 {
      var t, rest := After(cfg, home, s, run[0]), run[1..];
      StepKeepsPipe(cfg, home, initial, s, run[0]);
      LaneStepCauses(cfg, home, initial, s, run[0], i);
      LaneEndsAreCaused(cfg, home, initial, t, rest, i);
      var ends := AllEnds(FinalPipe(cfg, home, t, rest).lanes[i]);
      forall j | |AllEnds(s.lanes[i])| <= j < |ends|
        ensures CausedInLane(cfg, home, s, run, i, ends[j])
      {
        if j < |AllEnds(t.lanes[i])| {
          assert ends[j] == AllEnds(t.lanes[i])[j];
        } else {
          assert CausedInLane(cfg, home, t, rest, i, ends[j]);
        }
      }
    }
  }

  // ----- the store -----

  /** New lanes over a store that may hold anything. */
  ghost predicate Starts(s: Pipe) {
    forall i :: 0 <= i < |s.lanes| ==> exists n: nat :: s.lanes[i] == Opening(n)
  }

  lemma {:induction false} StartsOk(cfg: Config, home: Home, s: Pipe)
    requires Starts(s)
    ensures PipeInv(cfg, home, s.store, s)
  {
    forall i | 0 <= i < |s.lanes|
      ensures LaneOk(cfg, home, s.lanes[i], i)
    {
      var n: nat :| s.lanes[i] == Opening(n);
      OpeningInv(cfg, n);
    }
  }

  /** A token its lane committed: where it stands, what is accounted for, and that all is settled if nothing was abandoned. */
  ghost predicate Backed(lane: Lane, p: nat, k: string, value: string) {
    && k in lane.committed && lane.committed[k] == value
    && (exists i: nat :: TokenAt(lane, p, k, i) && AccountedUpTo(lane, p, i))
    && (Undisturbed(lane.closed) ==> Justified(lane, p, k, value, Q.Of(p, Past(lane.closed))))
  }

  lemma {:induction false} LaneBacks(cfg: Config, home: Home, lane: Lane, i: nat, k: string)
    requires LaneOk(cfg, home, lane, i) && k in lane.committed
    ensures Backed(lane, home(k).1, k, lane.committed[k])
  {
    var owner := (key: string) => home(key).1;
    var at := PositionByInv(cfg, lane, owner, k);
    PastIsShared(lane.closed);
    EndsCover(lane.closed);
    assert AccountedUpTo(lane, home(k).1, at);
    if Undisturbed(lane.closed) {
      InvJustifies(cfg, lane, owner, k);
    }
  }

  /**
   Whatever the interleaving of lanes and whatever the store held before: a token found in the store is the one it held
   from the start, with nothing committed for the key since, or its lane backs it. Every end has its reason in the run.
   */
  lemma {:induction false} StoredMeansSettled(cfg: Config, home: Home, s: Pipe, run: seq<Step>, k: string)
    requires Starts(s) && LegalPipe(cfg, home, s, run) && k in FinalPipe(cfg, home, s, run).store
    ensures var t := FinalPipe(cfg, home, s, run);
            && (if CommittedBy(home, t, k) then Backed(t.lanes[home(k).0], home(k).1, k, t.store[k])
                else k in s.store && s.store[k] == t.store[k])
            && |t.lanes| == |s.lanes|
            && forall i :: 0 <= i < |t.lanes| ==> LaneCaused(cfg, home, s, run, i, AllEnds(t.lanes[i]), 0)
  {
    StartsOk(cfg, home, s);
    RunKeepsPipe(cfg, home, s.store, s, run);
    LanesStay(cfg, home, s, run);
    var t := FinalPipe(cfg, home, s, run);
    assert KeyOk(home, s.store, t, k);
    if CommittedBy(home, t, k) {
      assert LaneOk(cfg, home, t.lanes[home(k).0], home(k).0);
      LaneBacks(cfg, home, t.lanes[home(k).0], home(k).0, k);
    }
    forall i | 0 <= i < |t.lanes|
      ensures LaneCaused(cfg, home, s, run, i, AllEnds(t.lanes[i]), 0)
    {
      var n: nat :| s.lanes[i] == Opening(n);
      LaneEndsAreCaused(cfg, home, s.store, s, run, i);
    }
  }

  /** No key is ever lost: the store holds every key it held from the start and every key some lane has committed. */
  lemma {:induction false} NoKeyIsLost(cfg: Config, home: Home, s: Pipe, run: seq<Step>, k: string)
    requires Starts(s) && LegalPipe(cfg, home, s, run)
    ensures var t := FinalPipe(cfg, home, s, run); k in t.store <==> k in s.store || CommittedBy(home, t, k)
  {
    StartsOk(cfg, home, s);
    RunKeepsPipe(cfg, home, s.store, s, run);
    assert KeyOk(home, s.store, FinalPipe(cfg, home, s, run), k);
  }
}
