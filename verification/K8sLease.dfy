/**
 Leader election over a Kubernetes Lease (src/sf2loki/coordinate/k8s_lease.py).

 The API server holds one versioned object and answers a create with 409 when it exists and a replace with 409
 when its version moved on. Requests travel: one may land long after its sender gave up on it, be lost, or land
 with its answer lost. Every replica measures staleness on its own monotonic clock, at any offset from real time.
 */
module K8sLease {
  import opened Options

  type Identity = string

  datatype Lease = Lease(holder: Identity, renewTime: Option<int>, duration: Option<int>, version: nat) {
    /** Somebody holds it and renews it. */
    predicate Live() {
      holder != "" && renewTime.Some? && duration.Some?
    }

    predicate IsStale(staleness: int) {
      if holder == "" || renewTime.None? || duration.None? then true else staleness >= duration.value
    }
  }

  /** Leases record whole seconds; durations are in milliseconds. */
  function Recorded(duration: nat): nat {
    duration / 1000 * 1000
  }

  datatype Request =
    | Create(who: Identity, id: nat, stamp: int)
    | Takeover(who: Identity, id: nat, stamp: int, version: nat, watchedSince: int, decidedAt: int)
    | Renewal(who: Identity, id: nat, stamp: int, version: nat)

  /**
   `Read` and `HoldRead` hold a server answer not yet acted upon; a failed read looks like an absent lease. `wall` is what
   the wall clock showed before the holder read the lease.
   */
  datatype Phase =
    | Standby
    | Read(result: Option<Lease>)
    | Claiming(id: nat)
    | Acquired(version: nat)
    | Holding(version: nat)
    | HoldRead(version: nat, result: Option<Lease>, wall: int)
    | Renewing(id: nat, version: nat, wall: int)

  /** `lastOk` is the wall clock of the last renewal that succeeded. */
  datatype Replica = Replica(phase: Phase, isLeader: bool, observedVersion: Option<nat>, observedAt: int, lastOk: int)

  const FRESH := Replica(Standby, false, None, 0, 0)

  // ----- one replica's decisions -----

  /** The observed-time rule: only a change of version restarts the watch. */
  function Observed(r: Replica, lease: Lease, clock: int): Replica {
    if r.observedVersion == Some(lease.version) then r
    else r.(observedVersion := Some(lease.version), observedAt := clock)
  }

  datatype Decision = Poll | SendCreate | SendTakeover(version: nat)

  function AcquireDecision(r: Replica, result: Option<Lease>, clock: int): Decision {
    if result.None? then SendCreate
    else if result.value.IsStale(clock - Observed(r, result.value, clock).observedAt) then SendTakeover(result.value.version)
    else Poll
  }

  /** The replica after it looked at what it read. */
  function Watching(r: Replica, clock: int): Replica
    requires r.phase.Read?
  {
    if r.phase.result.Some? then Observed(r, r.phase.result.value, clock) else r
  }

  /** The version the renewal is conditioned on, or none when another holder was read. */
  function RenewVersion(who: Identity, known: nat, result: Option<Lease>): Option<nat> {
    if result.None? then Some(known)
    else if result.value.holder != who then None
    else Some(result.value.version)
  }

  // ----- the whole system -----

  /** `durations` are the configured lease durations, `offsets` the distance of each monotonic clock to real time. */
  datatype Config = Config(durations: map<Identity, nat>, offsets: map<Identity, int>)

  datatype Written = Written(lease: Lease, at: int)

  /** `versions` remembers every version the object ever had and when it was written. */
  datatype System = System(
    now: int,
    lease: Option<Lease>,
    nextVersion: nat,
    versions: map<nat, Written>,
    replicas: map<Identity, Replica>,
    inFlight: set<Request>,
    nextId: nat)

  datatype Action =
    | Tick(elapsed: nat)
    | DeleteLease
    | StandbyReads(who: Identity, ok: bool)
    | Decides(who: Identity, stamp: int)
    | StartsHold(who: Identity, wall: int)
    | HolderReads(who: Identity, ok: bool, wall: int)
    | Renews(who: Identity)
    | Lands(request: Request, answered: bool)
    | Loses(request: Request)
    | Fails(who: Identity)
    | Halts(who: Identity)

  predicate Enabled(cfg: Config, s: System, a: Action) {
    match a
    case Tick(_) => true
    case DeleteLease => true
    case Lands(request, _) => request in s.inFlight && request.who in cfg.durations && request.who in s.replicas
    case Loses(request) => request in s.inFlight
    case StandbyReads(who, _) => who in s.replicas && s.replicas[who].phase.Standby?
    case Decides(who, _) => who in s.replicas && who in cfg.offsets && s.replicas[who].phase.Read?
    case StartsHold(who, _) => who in s.replicas && s.replicas[who].phase.Acquired?
    case HolderReads(who, _, _) => who in s.replicas && s.replicas[who].phase.Holding?
    case Renews(who) => who in s.replicas && s.replicas[who].phase.HoldRead?
    case Fails(who) =>
      who in s.replicas && who in cfg.durations && (s.replicas[who].phase.Claiming? || s.replicas[who].phase.Renewing?)
    case Halts(who) => who in s.replicas
  }

  function Move(s: System, who: Identity, r: Replica): System {
    s.(replicas := s.replicas[who := r])
  }

  function Send(s: System, request: Request): System {
    s.(inFlight := s.inFlight + {request}, nextId := s.nextId + 1)
  }

  /** Whether the server accepts the request: create needs absence, replace needs the exact version. */
  predicate Accepted(s: System, request: Request) {
    match request
    case Create(_, _, _) => s.lease.None?
    case Takeover(_, _, _, version, _, _) => s.lease.Some? && s.lease.value.version == version
    case Renewal(_, _, _, version) => s.lease.Some? && s.lease.value.version == version
  }

  function Stored(cfg: Config, s: System, request: Request): System
    requires request.who in cfg.durations
  {
    var lease := Lease(request.who, Some(request.stamp), Some(Recorded(cfg.durations[request.who])), s.nextVersion);
    s.(lease := Some(lease), nextVersion := s.nextVersion + 1, versions := s.versions[s.nextVersion := Written(lease, s.now)])
  }

  /** The sender still waits for the answer to this very request. */
  predicate Awaited(r: Replica, request: Request) {
    (r.phase.Claiming? || r.phase.Renewing?) && r.phase.id == request.id
  }

  function Surrendered(r: Replica): Replica {
    r.(phase := Standby, isLeader := false)
  }

  /** The answer to a claim or a renewal: accepted, refused, or none that counts. */
  function AfterAccept(r: Replica, version: nat): Replica
    requires r.phase.Claiming? || r.phase.Renewing?
  {
    if r.phase.Claiming? then r.(phase := Acquired(version), isLeader := true)
    else r.(phase := Holding(version), lastOk := r.phase.wall)
  }

  function AfterFailure(r: Replica, duration: nat): Replica
    requires r.phase.Claiming? || r.phase.Renewing?
  {
    if r.phase.Claiming? || r.phase.wall - r.lastOk >= duration then Surrendered(r) else r.(phase := Holding(r.phase.version))
  }

  function AfterStartHold(r: Replica, wall: int): Replica
    requires r.phase.Acquired?
  {
    r.(phase := Holding(r.phase.version), lastOk := wall)
  }

  /** The request a standby sends for what it read, or none while it keeps polling. */
  function Claim(cfg: Config, s: System, who: Identity, r: Replica, stamp: int): Option<Request>
    requires who in cfg.offsets && r.phase.Read?
  {
    var clock := s.now + cfg.offsets[who];
    match AcquireDecision(r, r.phase.result, clock)
    case Poll => None
    case SendCreate => Some(Create(who, s.nextId, stamp))
    case SendTakeover(version) =>
      Some(Takeover(who, s.nextId, stamp, version, Watching(r, clock).observedAt - cfg.offsets[who], s.now))
  }

  /** A replica moves on, perhaps sending a request. */
  function Proceed(s: System, who: Identity, r: Replica, request: Option<Request>): System {
    if request.None? then Move(s, who, r) else Send(Move(s, who, r), request.value)
  }

  function Decided(cfg: Config, s: System, who: Identity, r: Replica, stamp: int): Replica
    requires who in cfg.offsets && r.phase.Read?
  {
    Watching(r, s.now + cfg.offsets[who]).(phase := if Claim(cfg, s, who, r, stamp).None? then Standby else Claiming(s.nextId))
  }

  function RenewRequest(s: System, who: Identity, r: Replica): Option<Request>
    requires r.phase.HoldRead?
  {
    match RenewVersion(who, r.phase.version, r.phase.result)
    case None => None
    case Some(version) => Some(Renewal(who, s.nextId, r.phase.wall, version))
  }

  function Renewed(s: System, who: Identity, r: Replica): Replica
    requires r.phase.HoldRead?
  {
    match RenewVersion(who, r.phase.version, r.phase.result)
    case None => Surrendered(r)
    case Some(version) => r.(phase := Renewing(s.nextId, version, r.phase.wall))
  }

  function AfterLanding(cfg: Config, s: System, request: Request, answered: bool): System
    requires Enabled(cfg, s, Lands(request, answered))
  {
    var t := (if Accepted(s, request) then Stored(cfg, s, request) else s).(inFlight := s.inFlight - {request});
    var r := s.replicas[request.who];
    if !answered || !Awaited(r, request) then t
    else if Accepted(s, request) then Move(t, request.who, AfterAccept(r, s.nextVersion))
    else Move(t, request.who, Surrendered(r))
  }

  function Apply(cfg: Config, s: System, a: Action): System
    requires Enabled(cfg, s, a)
  {
    match a
    case Tick(elapsed) => s.(now := s.now + elapsed)
    case DeleteLease => s.(lease := None)
    case StandbyReads(who, ok) => Move(s, who, s.replicas[who].(phase := Read(if ok then s.lease else None)))
    case Decides(who, stamp) =>
      var r := s.replicas[who];
      Proceed(s, who, Decided(cfg, s, who, r, stamp), Claim(cfg, s, who, r, stamp))
    case StartsHold(who, wall) => Move(s, who, AfterStartHold(s.replicas[who], wall))
    case HolderReads(who, ok, wall) =>
      var r := s.replicas[who];
      Move(s, who, r.(phase := HoldRead(r.phase.version, if ok then s.lease else None, wall)))
    case Renews(who) =>
      var r := s.replicas[who];
      Proceed(s, who, Renewed(s, who, r), RenewRequest(s, who, r))
    case Lands(request, answered) => AfterLanding(cfg, s, request, answered)
    case Loses(request) => s.(inFlight := s.inFlight - {request})
    case Fails(who) => Move(s, who, AfterFailure(s.replicas[who], cfg.durations[who]))
    case Halts(who) => Move(s, who, FRESH)
  }

  predicate Legal(cfg: Config, s: System, run: seq<Action>)
    decreases |run|
  {
    run == [] || (Enabled(cfg, s, run[0]) && Legal(cfg, Apply(cfg, s, run[0]), run[1..]))
  }

  function Final(cfg: Config, s: System, run: seq<Action>): System
    requires Legal(cfg, s, run)
    decreases |run|
  {
    if run == [] then s else Final(cfg, Apply(cfg, s, run[0]), run[1..])
  }

  /** Any pre-existing lease, even one with missing fields, and no replica at work yet. */
  predicate Init(cfg: Config, s: System) {
    && s.replicas.Keys == cfg.durations.Keys == cfg.offsets.Keys
    && (forall h :: h in s.replicas ==> s.replicas[h] == FRESH)
    && "" !in s.replicas
    && s.inFlight == {}
    && s.versions == (if s.lease.Some? then map[s.lease.value.version := Written(s.lease.value, s.now)] else map[])
    && (s.lease.Some? ==> s.lease.value.version < s.nextVersion)
  }

  // ----- the invariant -----

  predicate Known(s: System, version: nat) {
    version in s.versions
  }

  predicate OwnVersion(s: System, who: Identity, version: nat) {
    Known(s, version) && s.versions[version].lease.holder == who
  }

  predicate Genuine(s: System, lease: Lease) {
    Known(s, lease.version) && s.versions[lease.version].lease == lease
  }

  predicate ReplicaInv(cfg: Config, s: System, who: Identity, r: Replica)
    requires who in cfg.offsets
  {
    && (r.observedVersion.Some? ==>
          && Known(s, r.observedVersion.value)
          && s.versions[r.observedVersion.value].at <= r.observedAt - cfg.offsets[who] <= s.now)
    && match r.phase
       case Read(result) => result.Some? ==> Genuine(s, result.value)
       case Acquired(version) => OwnVersion(s, who, version)
       case Holding(version) => OwnVersion(s, who, version)
       case HoldRead(version, result, _) => OwnVersion(s, who, version) && (result.Some? ==> Genuine(s, result.value))
       case Renewing(_, version, _) => OwnVersion(s, who, version)
       case _ => true
  }

  predicate RequestInv(s: System, request: Request) {
    match request
    case Create(_, _, _) => true
    case Takeover(_, _, _, version, watchedSince, decidedAt) =>
      && Known(s, version)
      && s.versions[version].at <= watchedSince <= decidedAt <= s.now
      && (s.versions[version].lease.Live() ==> decidedAt - watchedSince >= s.versions[version].lease.duration.value)
    case Renewal(who, _, _, version) => OwnVersion(s, who, version)
  }

  predicate Inv(cfg: Config, s: System) {
    && s.replicas.Keys == cfg.durations.Keys == cfg.offsets.Keys
    && "" !in s.replicas
    && (s.lease.Some? ==> Genuine(s, s.lease.value))
    && (forall v :: v in s.versions ==> v < s.nextVersion && s.versions[v].lease.version == v && s.versions[v].at <= s.now)
    && (forall h :: h in s.replicas ==> ReplicaInv(cfg, s, h, s.replicas[h]))
    && (forall q :: q in s.inFlight ==> q.who in s.replicas && RequestInv(s, q))
  }

  /** Versions are never reused, so what was known of one stays true. */
  lemma {:induction false} StoredKeepsInv(cfg: Config, s: System, request: Request)
    requires Inv(cfg, s) && request.who in cfg.durations
    ensures Inv(cfg, Stored(cfg, s, request))
    ensures OwnVersion(Stored(cfg, s, request), request.who, s.nextVersion)
  {
    var t := Stored(cfg, s, request);
    forall h | h in t.replicas
      ensures ReplicaInv(cfg, t, h, t.replicas[h])
    {
      assert ReplicaInv(cfg, s, h, s.replicas[h]);
    }
    forall q | q in t.inFlight
      ensures q.who in t.replicas && RequestInv(t, q)
    {
      assert RequestInv(s, q);
    }
  }

  lemma {:induction false} MoveKeepsInv(cfg: Config, s: System, who: Identity, r: Replica)
    requires Inv(cfg, s) && who in s.replicas && ReplicaInv(cfg, s, who, r)
    ensures Inv(cfg, Move(s, who, r))
  {
    var t := Move(s, who, r);
    forall h | h in t.replicas
      ensures ReplicaInv(cfg, t, h, t.replicas[h])
    {
      assert h != who ==> ReplicaInv(cfg, s, h, s.replicas[h]);
    }
    forall q | q in t.inFlight
      ensures q.who in t.replicas && RequestInv(t, q)
    {
      assert RequestInv(s, q);
    }
  }

  lemma {:induction false} TrafficKeepsInv(cfg: Config, s: System, inFlight: set<Request>, nextId: nat)
    requires Inv(cfg, s)
    requires forall q :: q in inFlight ==> q.who in s.replicas && RequestInv(s, q)
    ensures Inv(cfg, s.(inFlight := inFlight, nextId := nextId))
  {
    var t := s.(inFlight := inFlight, nextId := nextId);
    forall h | h in t.replicas
      ensures ReplicaInv(cfg, t, h, t.replicas[h])
    {
      assert ReplicaInv(cfg, s, h, s.replicas[h]);
    }
    forall q | q in t.inFlight
      ensures RequestInv(t, q)
    {
      assert RequestInv(s, q);
    }
  }

  lemma {:induction false} TickKeepsInv(cfg: Config, s: System, elapsed: nat, lease: Option<Lease>)
    requires Inv(cfg, s) && (lease.Some? ==> Genuine(s, lease.value))
    ensures Inv(cfg, s.(now := s.now + elapsed, lease := lease))
  {
    var t := s.(now := s.now + elapsed, lease := lease);
    forall h | h in t.replicas
      ensures ReplicaInv(cfg, t, h, t.replicas[h])
    {
      assert ReplicaInv(cfg, s, h, s.replicas[h]);
    }
    forall q | q in t.inFlight
      ensures RequestInv(t, q)
    {
      assert RequestInv(s, q);
    }
  }

  lemma {:induction false} MoveKeepsRequest(s: System, who: Identity, r: Replica, request: Request)
    requires RequestInv(s, request)
    ensures RequestInv(Move(s, who, r), request)
  {
  }

  lemma {:induction false} SendKeepsInv(cfg: Config, s: System, request: Request)
    requires Inv(cfg, s) && request.who in s.replicas && RequestInv(s, request)
    ensures Inv(cfg, Send(s, request))
  {
    TrafficKeepsInv(cfg, s, s.inFlight + {request}, s.nextId + 1);
  }

  lemma {:induction false} ProceedKeepsInv(cfg: Config, s: System, who: Identity, r: Replica, request: Option<Request>)
    requires Inv(cfg, s) && who in s.replicas && ReplicaInv(cfg, s, who, r)
    requires request.Some? ==> request.value.who == who && RequestInv(s, request.value)
    ensures Inv(cfg, Proceed(s, who, r, request))
  {
    MoveKeepsInv(cfg, s, who, r);
    if request.Some? {
      MoveKeepsRequest(s, who, r, request.value);
      SendKeepsInv(cfg, Move(s, who, r), request.value);
    }
  }

  lemma {:induction false} DecisionIsSound(cfg: Config, s: System, who: Identity, r: Replica, stamp: int)
    requires who in cfg.offsets && r.phase.Read? && ReplicaInv(cfg, s, who, r)
    requires forall v :: v in s.versions ==> s.versions[v].at <= s.now
    ensures ReplicaInv(cfg, s, who, Decided(cfg, s, who, r, stamp))
    ensures var claim := Claim(cfg, s, who, r, stamp);
            claim.Some? ==> claim.value.who == who && RequestInv(s, claim.value)
  {
  }

  lemma {:induction false} LandsKeepsInv(cfg: Config, s: System, request: Request, answered: bool)
    requires Inv(cfg, s) && Enabled(cfg, s, Lands(request, answered))
    ensures Inv(cfg, Apply(cfg, s, Lands(request, answered)))
  {
    var stored := if Accepted(s, request) then Stored(cfg, s, request) else s;
    if Accepted(s, request) {
      StoredKeepsInv(cfg, s, request);
    }
    var t := stored.(inFlight := s.inFlight - {request});
    TrafficKeepsInv(cfg, stored, s.inFlight - {request}, s.nextId);
    var r := s.replicas[request.who];
    assert ReplicaInv(cfg, t, request.who, t.replicas[request.who]);
    if answered && Awaited(r, request) {
      var next := if Accepted(s, request) then AfterAccept(r, s.nextVersion) else Surrendered(r);
      MoveKeepsInv(cfg, t, request.who, next);
    }
  }

  lemma {:induction false} DecidesKeepsInv(cfg: Config, s: System, who: Identity, stamp: int)
    requires Inv(cfg, s) && Enabled(cfg, s, Decides(who, stamp))
    ensures Inv(cfg, Apply(cfg, s, Decides(who, stamp)))
  {
    var r := s.replicas[who];
    assert ReplicaInv(cfg, s, who, r);
    DecisionIsSound(cfg, s, who, r, stamp);
    ProceedKeepsInv(cfg, s, who, Decided(cfg, s, who, r, stamp), Claim(cfg, s, who, r, stamp));
  }

  lemma {:induction false} RenewsKeepsInv(cfg: Config, s: System, who: Identity)
    requires Inv(cfg, s) && Enabled(cfg, s, Renews(who))
    ensures Inv(cfg, Apply(cfg, s, Renews(who)))
  {
    var r := s.replicas[who];
    assert ReplicaInv(cfg, s, who, r);
    ProceedKeepsInv(cfg, s, who, Renewed(s, who, r), RenewRequest(s, who, r));
  }

  /** Steps that only move one replica. */
  lemma {:induction false} LocalStepKeepsInv(cfg: Config, s: System, a: Action)
    requires Inv(cfg, s) && Enabled(cfg, s, a)
    requires a.StandbyReads? || a.StartsHold? || a.HolderReads? || a.Fails? || a.Halts?
    ensures Inv(cfg, Apply(cfg, s, a))
  {
    var r := s.replicas[a.who];
    assert ReplicaInv(cfg, s, a.who, r);
    var next := Apply(cfg, s, a).replicas[a.who];
    MoveKeepsInv(cfg, s, a.who, next);
    assert Apply(cfg, s, a) == Move(s, a.who, next);
  }

  lemma {:induction false} StepKeepsInv(cfg: Config, s: System, a: Action)
    requires Inv(cfg, s) && Enabled(cfg, s, a)
    ensures Inv(cfg, Apply(cfg, s, a))
  {
    match a
    case Tick(elapsed) => TickKeepsInv(cfg, s, elapsed, s.lease);
    case DeleteLease => TickKeepsInv(cfg, s, 0, None);
    case Decides(who, stamp) => DecidesKeepsInv(cfg, s, who, stamp);
    case Renews(who) => RenewsKeepsInv(cfg, s, who);
    case Lands(request, answered) => LandsKeepsInv(cfg, s, request, answered);
    case Loses(request) => TrafficKeepsInv(cfg, s, s.inFlight - {request}, s.nextId);
    case _ => LocalStepKeepsInv(cfg, s, a);
  }

  lemma {:induction false} RunKeepsInv(cfg: Config, s: System, run: seq<Action>)
    requires Inv(cfg, s) && Legal(cfg, s, run)
    ensures Inv(cfg, Final(cfg, s, run))
    decreases |run|
  {
    if run != [] {
      StepKeepsInv(cfg, s, run[0]);
      RunKeepsInv(cfg, Apply(cfg, s, run[0]), run[1..]);
    }
  }

  // ----- the theorems -----

  /** In every run, a renewal that the server accepts replaces a version carrying the renewing holder's own identity. */
  lemma {:induction false} RenewalReplacesOwnVersion(cfg: Config, start: System, run: seq<Action>, request: Request)
    requires Init(cfg, start) && Legal(cfg, start, run)
    requires var s := Final(cfg, start, run);
             request.Renewal? && request in s.inFlight && Accepted(s, request)
    ensures Final(cfg, start, run).lease.value.holder == request.who
  {
    RunKeepsInv(cfg, start, run);
    assert RequestInv(Final(cfg, start, run), request);
  }

  /** What it takes to change the holder of a live lease `before` by one step. */
  predicate WatchedTakeover(s: System, a: Action, before: Lease)
    requires before.duration.Some?
  {
    && a.Lands? && a.request.Takeover?
    && a.request.version == before.version
    && Known(s, before.version) && s.versions[before.version].at <= a.request.watchedSince
    && a.request.decidedAt - a.request.watchedSince >= before.duration.value
    && a.request.decidedAt <= s.now
  }

  /**
   In every run, a live lease passes from one holder to another only by a takeover whose sender had watched that
   exact version, from when it was already current and for the whole recorded duration.
   */
  lemma {:induction false} HolderChangesOnlyAfterWatch(cfg: Config, start: System, run: seq<Action>, a: Action)
    requires Init(cfg, start) && Legal(cfg, start, run)
    requires var s := Final(cfg, start, run);
             && Enabled(cfg, s, a) && s.lease.Some? && s.lease.value.Live()
             && Apply(cfg, s, a).lease.Some? && Apply(cfg, s, a).lease.value.holder != s.lease.value.holder
    ensures var s := Final(cfg, start, run);
            WatchedTakeover(s, a, s.lease.value)
  {
    RunKeepsInv(cfg, start, run);
    TakeoverIsWatched(cfg, Final(cfg, start, run), a);
  }

  lemma {:induction false} TakeoverIsWatched(cfg: Config, s: System, a: Action)
    requires Inv(cfg, s) && Enabled(cfg, s, a) && s.lease.Some? && s.lease.value.Live()
    requires Apply(cfg, s, a).lease.Some? && Apply(cfg, s, a).lease.value.holder != s.lease.value.holder
    ensures WatchedTakeover(s, a, s.lease.value)
  {
    if a.Lands? {
      assert RequestInv(s, a.request);
    }
  }

  /** Throughout the run, whenever `leader` holds the lease its last write is younger than the recorded duration. */
  predicate RenewsInTime(cfg: Config, s: System, run: seq<Action>, leader: Identity)
    requires Legal(cfg, s, run)
    decreases |run|
  {
    && (HeldBy(s, leader) ==> RecentlyWritten(s))
    && (run != [] ==> run[0] != DeleteLease && RenewsInTime(cfg, Apply(cfg, s, run[0]), run[1..], leader))
  }

  predicate HeldBy(s: System, leader: Identity) {
    s.lease.Some? && s.lease.value.holder == leader && s.lease.value.Live()
  }

  predicate RecentlyWritten(s: System)
    requires s.lease.Some? && s.lease.value.Live()
  {
    Known(s, s.lease.value.version) && s.now < s.versions[s.lease.value.version].at + s.lease.value.duration.value
  }

  lemma {:induction false} KeepsLease(cfg: Config, s: System, run: seq<Action>, leader: Identity)
    requires Inv(cfg, s) && Legal(cfg, s, run) && HeldBy(s, leader) && RenewsInTime(cfg, s, run, leader)
    ensures HeldBy(Final(cfg, s, run), leader)
    decreases |run|
  {
    if run != [] {
      StepKeepsInv(cfg, s, run[0]);
      if run[0].Lands? {
        assert RequestInv(s, run[0].request);
      }
      KeepsLease(cfg, Apply(cfg, s, run[0]), run[1..], leader);
    }
  }

  /**
   A leader whose successful renewals are always less than the recorded duration apart is never displaced: not by
   failed reads (which make standbys try to create), not by skewed clocks, not by late or lost requests.
   */
  lemma {:induction false} PromptLeaderIsNeverDisplaced(cfg: Config, start: System, before: seq<Action>, after: seq<Action>, leader: Identity)
    requires Init(cfg, start) && Legal(cfg, start, before)
    requires HeldBy(Final(cfg, start, before), leader)
    requires Legal(cfg, Final(cfg, start, before), after) && RenewsInTime(cfg, Final(cfg, start, before), after, leader)
    ensures HeldBy(Final(cfg, Final(cfg, start, before), after), leader)
  {
    RunKeepsInv(cfg, start, before);
    KeepsLease(cfg, Final(cfg, start, before), after, leader);
  }

  // ----- the coordinator object -----

  datatype Answer = Accept(version: nat) | Conflict | NotFound | Failure

  /** One replica's coordinator; a method is the code between two suspension points of `_acquire` or `_hold`. */
  class K8sLeaseCoordinator {
    const holder: Identity
    const duration: nat
    var phase: Phase
    var isLeader: bool
    var observedVersion: Option<nat>
    var observedAt: int
    var lastOk: int

    constructor (holder: Identity, duration: nat)
      ensures this.holder == holder && this.duration == duration && View() == FRESH && Valid()
    {
      this.holder, this.duration := holder, duration;
      phase, isLeader, observedVersion, observedAt, lastOk := Standby, false, None, 0, 0;
    }

    function View(): Replica
      reads this
    {
      Replica(phase, isLeader, observedVersion, observedAt, lastOk)
    }

    /** A replica leads from the claim that was accepted until it surrenders. */
    ghost predicate Valid()
      reads this
    {
      isLeader <==> phase.Acquired? || phase.Holding? || phase.HoldRead? || phase.Renewing?
    }

    method Observe(lease: Lease, clock: int) returns (staleness: int)
      requires Valid()
      modifies this
      ensures Valid() && phase == old(phase)
      ensures View() == Observed(old(View()), lease, clock)
      ensures staleness == clock - observedAt
    {
      if observedVersion != Some(lease.version) {
        observedVersion := Some(lease.version);
        observedAt := clock;
      }
      staleness := clock - observedAt;
    }

    method AcquireStep(clock: int, id: nat) returns (decision: Decision)
      requires Valid() && phase.Read?
      modifies this
      ensures Valid()
      ensures decision == AcquireDecision(old(View()), old(phase).result, clock)
      ensures View() == Watching(old(View()), clock).(phase := if decision.Poll? then Standby else Claiming(id))
    {
      var lease := phase.result;
      if lease.None? {
        decision := SendCreate;
      } else {
        var staleness := Observe(lease.value, clock);
        decision := if lease.value.IsStale(staleness) then SendTakeover(lease.value.version) else Poll;
      }
      phase := if decision.Poll? then Standby else Claiming(id);
    }

    method ClaimAnswered(answer: Answer)
      requires Valid() && phase.Claiming?
      modifies this
      ensures Valid()
      ensures View() == match answer
                        case Accept(version) => AfterAccept(old(View()), version)
                        case Failure => AfterFailure(old(View()), duration)
                        case _ => Surrendered(old(View()))
    {
      if answer.Accept? {
        phase := Acquired(answer.version);
        isLeader := true;
      } else {
        phase := Standby;
      }
    }

    method StartHold(wall: int)
      requires Valid() && phase.Acquired?
      modifies this
      ensures Valid() && View() == AfterStartHold(old(View()), wall)
    {
      lastOk := wall;
      phase := Holding(phase.version);
    }

    method HoldStep(id: nat) returns (condition: Option<nat>)
      requires Valid() && phase.HoldRead?
      modifies this
      ensures Valid()
      ensures condition == RenewVersion(holder, old(phase).version, old(phase).result)
      ensures View() == if condition.None? then Surrendered(old(View()))
                        else old(View()).(phase := Renewing(id, condition.value, old(phase).wall))
    {
      var lease := phase.result;
      var version := phase.version;
      if lease.Some? && lease.value.holder != holder {
        isLeader := false;
        phase := Standby;
        return None;
      }
      if lease.Some? {
        version := lease.value.version;
      }
      phase := Renewing(id, version, phase.wall);
      condition := Some(version);
    }

    method RenewalAnswered(answer: Answer)
      requires Valid() && phase.Renewing?
      modifies this
      ensures Valid()
      ensures View() == match answer
                        case Accept(version) => AfterAccept(old(View()), version)
                        case Failure => AfterFailure(old(View()), duration)
                        case _ => Surrendered(old(View()))
    {
      match answer
      case Accept(version) =>
        lastOk := phase.wall;
        phase := Holding(version);
      case Failure =>
        if phase.wall - lastOk >= duration {
          isLeader := false;
          phase := Standby;
        } else {
          phase := Holding(phase.version);
        }
      case _ =>
        isLeader := false;
        phase := Standby;
    }
  }
}
