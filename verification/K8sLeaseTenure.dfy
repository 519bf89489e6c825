/**
 The tenure of a Kubernetes leader (src/sf2loki/coordinate/k8s_lease.py): exactly what a standby sends, which steps begin
 and end a tenure, and that a standby takes over from a silent leader and a live leader can always renew.
 */
module K8sLeaseTenure {
  import opened Options
  import opened K8sLease

  // ----- what a run says about one replica -----

  /** A version and the moment from which it was the only one looked at. */
  datatype Watch = Watch(version: nat, since: int)

  /** What the replica last read, what it watches, its wall clock at the last look and at that of the last renewal. */
  datatype Notes = Notes(seen: Option<Lease>, watch: Option<Watch>, looked: int, renewed: int)

  const BLANK := Notes(None, None, 0, 0)

  /** The watch once `seen` is looked at. */
  function Watched(watch: Option<Watch>, seen: Option<Lease>, now: int): Option<Watch> {
    if seen.None? || (watch.Some? && watch.value.version == seen.value.version) then watch
    else Some(Watch(seen.value.version, now))
  }

  /** The server answers the request that `h` waits for. */
  predicate Answers(s: System, h: Identity, a: Action) {
    a.Lands? && a.answered && a.request.who == h && h in s.replicas && Awaited(s.replicas[h], a.request)
  }

  function Noted(s: System, m: Notes, h: Identity, a: Action): Notes
    requires h in s.replicas
  {
    match a
    case StandbyReads(who, ok) => if who == h then m.(seen := if ok then s.lease else None) else m
    case Decides(who, _) => if who == h then m.(watch := Watched(m.watch, m.seen, s.now)) else m
    case StartsHold(who, wall) => if who == h then m.(renewed := wall) else m
    case HolderReads(who, ok, wall) => if who == h then m.(seen := if ok then s.lease else None, looked := wall) else m
    case Lands(request, _) =>
      if Answers(s, h, a) && Accepted(s, request) && s.replicas[h].phase.Renewing? then m.(renewed := m.looked) else m
    case Halts(who) => if who == h then BLANK else m
    case _ => m
  }

  function NotedAll(cfg: Config, s: System, m: Notes, h: Identity, run: seq<Action>): Notes
    requires Legal(cfg, s, run) && h in s.replicas
    decreases |run|
  {
    if run == [] then m else NotedAll(cfg, Apply(cfg, s, run[0]), Noted(s, m, h, run[0]), h, run[1..])
  }

  predicate Leading(r: Replica) {
    r.phase.Acquired? || r.phase.Holding? || r.phase.HoldRead? || r.phase.Renewing?
  }

  /** The replica is where its notes say it is. */
  predicate Keeps(cfg: Config, h: Identity, r: Replica, m: Notes)
    requires h in cfg.offsets
  {
    && (r.isLeader <==> Leading(r))
    && (r.isLeader && !r.phase.Acquired? ==> r.lastOk == m.renewed)
    && (r.phase.HoldRead? || r.phase.Renewing? ==> r.phase.wall == m.looked)
    && (r.phase.HoldRead? || r.phase.Read? ==> r.phase.result == m.seen)
    && r.observedVersion == (if m.watch.Some? then Some(m.watch.value.version) else None)
    && (m.watch.Some? ==> r.observedAt == m.watch.value.since + cfg.offsets[h])
  }

  predicate ByOther(a: Action, h: Identity) {
    match a
    case Tick(_) => true
    case DeleteLease => true
    case Lands(request, _) => request.who != h
    case Loses(request) => request.who != h
    case _ => a.who != h
  }

  lemma {:induction false} OtherStep(cfg: Config, s: System, a: Action, h: Identity)
    requires Enabled(cfg, s, a) && h in s.replicas && ByOther(a, h)
    ensures var t := Apply(cfg, s, a); h in t.replicas && t.replicas[h] == s.replicas[h]
  {
  }

  lemma {:induction false} LandingKeepsNotes(cfg: Config, s: System, request: Request, answered: bool, m: Notes)
    requires Enabled(cfg, s, Lands(request, answered)) && request.who in cfg.offsets
    requires Keeps(cfg, request.who, s.replicas[request.who], m)
    ensures var h, a := request.who, Lands(request, answered); Keeps(cfg, h, Apply(cfg, s, a).replicas[h], Noted(s, m, h, a))
  {
  }

  lemma {:induction false} StepKeepsNotes(cfg: Config, s: System, a: Action, h: Identity, m: Notes)
    requires Enabled(cfg, s, a) && h in s.replicas && h in cfg.offsets && Keeps(cfg, h, s.replicas[h], m)
    ensures h in Apply(cfg, s, a).replicas && Keeps(cfg, h, Apply(cfg, s, a).replicas[h], Noted(s, m, h, a))
  {
    if ByOther(a, h) {
      OtherStep(cfg, s, a, h);
    } else if a.Lands? {
      LandingKeepsNotes(cfg, s, a.request, a.answered, m);
    }
  }

  lemma {:induction false} RunKeepsNotes(cfg: Config, s: System, run: seq<Action>, h: Identity, m: Notes)
    requires Legal(cfg, s, run) && h in s.replicas && h in cfg.offsets && Keeps(cfg, h, s.replicas[h], m)
    ensures h in Final(cfg, s, run).replicas && Keeps(cfg, h, Final(cfg, s, run).replicas[h], NotedAll(cfg, s, m, h, run))
    decreases |run|
  {
    if run != [] {
      StepKeepsNotes(cfg, s, run[0], h, m);
      RunKeepsNotes(cfg, Apply(cfg, s, run[0]), run[1..], h, Noted(s, m, h, run[0]));
    }
  }

  // ----- what a standby sends -----

  predicate Sends(s: System, t: System, h: Identity, request: Request) {
    h in t.replicas && t.inFlight == s.inFlight + {request} && Awaited(t.replicas[h], request)
  }

  /** Somebody holds the lease and has shown a sign of life within its duration, as far as the watch goes. */
  predicate Protected(lease: Lease, watch: Option<Watch>, now: int) {
    lease.holder != "" && lease.renewTime.Some? && lease.duration.Some? && watch.Some? && now - watch.value.since < lease.duration.value
  }

  /**
   In every run a standby that has read nothing sends a create, one that has read a lease nobody holds, one with a missing
   field, or one it has watched for its duration sends a takeover of that version, and any other polls.
   */
  lemma {:induction false} DecidesExactly(cfg: Config, start: System, run: seq<Action>, h: Identity, stamp: int)
    requires Init(cfg, start) && Legal(cfg, start, run) && h in start.replicas
    requires Enabled(cfg, Final(cfg, start, run), Decides(h, stamp))
    ensures var s := Final(cfg, start, run);
            var t := Apply(cfg, s, Decides(h, stamp));
            var m := NotedAll(cfg, start, BLANK, h, run);
            var watch := Watched(m.watch, m.seen, s.now);
            if m.seen.None? then Sends(s, t, h, Create(h, s.nextId, stamp))
            else if Protected(m.seen.value, watch, s.now) then t.inFlight == s.inFlight && t.replicas[h].phase.Standby?
            else Sends(s, t, h, Takeover(h, s.nextId, stamp, m.seen.value.version, watch.value.since, s.now))
  {
    RunKeepsNotes(cfg, start, run, h, BLANK);
  }

  // ----- when a tenure begins and ends -----

  /** The renewal that `h` tries now comes a lease duration or more after its last successful one. */
  predicate Overdue(cfg: Config, m: Notes, h: Identity) {
    h in cfg.durations && m.looked - m.renewed >= cfg.durations[h]
  }

  /** A stop, a foreign holder read, a renewal refused, or one that fails a full duration after the last success. */
  predicate EndsTenure(cfg: Config, s: System, m: Notes, h: Identity, a: Action) {
    || a == Halts(h)
    || (a == Renews(h) && m.seen.Some? && m.seen.value.holder != h)
    || (Answers(s, h, a) && !Accepted(s, a.request))
    || (a == Fails(h) && Overdue(cfg, m, h))
  }

  predicate BeginsTenure(s: System, h: Identity, a: Action) {
    Answers(s, h, a) && Accepted(s, a.request)
  }

  /** One step changes leadership exactly as the notes of `h` say. */
  predicate ChangesAsNoted(cfg: Config, s: System, m: Notes, h: Identity, a: Action)
    requires Enabled(cfg, s, a)
  {
    var t := Apply(cfg, s, a);
    && h in s.replicas && h in t.replicas
    && (s.replicas[h].isLeader ==> (!t.replicas[h].isLeader <==> EndsTenure(cfg, s, m, h, a)))
    && (!s.replicas[h].isLeader ==> (t.replicas[h].isLeader <==> BeginsTenure(s, h, a)))
  }

  lemma {:induction false} OwnStepChanges(cfg: Config, s: System, m: Notes, h: Identity, a: Action)
    requires Enabled(cfg, s, a) && h in s.replicas && h in cfg.offsets && Keeps(cfg, h, s.replicas[h], m)
    requires !ByOther(a, h) && !a.Lands?
    ensures ChangesAsNoted(cfg, s, m, h, a)
  {
  }

  lemma {:induction false} LandingChanges(cfg: Config, s: System, m: Notes, request: Request, answered: bool)
    requires Enabled(cfg, s, Lands(request, answered)) && request.who in cfg.offsets
    requires Keeps(cfg, request.who, s.replicas[request.who], m)
    ensures ChangesAsNoted(cfg, s, m, request.who, Lands(request, answered))
  {
  }

  lemma {:induction false} StepChanges(cfg: Config, s: System, m: Notes, h: Identity, a: Action)
    requires Enabled(cfg, s, a) && h in s.replicas && h in cfg.offsets && Keeps(cfg, h, s.replicas[h], m)
    ensures ChangesAsNoted(cfg, s, m, h, a)
  {
    if ByOther(a, h) {
      OtherStep(cfg, s, a, h);
    } else if a.Lands? {
      LandingChanges(cfg, s, m, a.request, a.answered);
    } else {
      OwnStepChanges(cfg, s, m, h, a);
    }
  }

  /**
   In every run a leader stops leading exactly when it is stopped, acts on a foreign holder it read, is refused a renewal or
   fails at one although its last success is a lease duration ago; it starts leading exactly when its claim is granted.
   */
  lemma {:induction false} TenureChangesExactly(cfg: Config, start: System, run: seq<Action>, h: Identity, a: Action)
    requires Init(cfg, start) && Legal(cfg, start, run) && h in start.replicas && Enabled(cfg, Final(cfg, start, run), a)
    ensures ChangesAsNoted(cfg, Final(cfg, start, run), NotedAll(cfg, start, BLANK, h, run), h, a)
  {
    RunKeepsNotes(cfg, start, run, h, BLANK);
    StepChanges(cfg, Final(cfg, start, run), NotedAll(cfg, start, BLANK, h, run), h, a);
  }

  // ----- failover -----

  /** The lease stays what it is, and `h` is not stopped. */
  predicate Steady(cfg: Config, s: System, run: seq<Action>, h: Identity, lease: Lease)
    requires Legal(cfg, s, run)
    decreases |run|
  {
    s.lease == Some(lease) && (run == [] || (run[0] != Halts(h) && Steady(cfg, Apply(cfg, s, run[0]), run[1..], h, lease)))
  }

  /** `h` has been watching the version on record since the moment `since`, or longer. */
  predicate Watches(cfg: Config, s: System, h: Identity, lease: Lease, since: int) {
    && h in s.replicas && h in cfg.offsets
    && s.replicas[h].observedVersion == Some(lease.version)
    && s.replicas[h].observedAt <= since + cfg.offsets[h]
    && (s.replicas[h].phase.Read? && s.replicas[h].phase.result.Some? ==> s.replicas[h].phase.result.value == lease)
  }

  lemma {:induction false} KeepsWatching(cfg: Config, s: System, run: seq<Action>, h: Identity, lease: Lease, since: int)
    requires Legal(cfg, s, run) && Steady(cfg, s, run, h, lease) && Watches(cfg, s, h, lease, since)
    ensures Watches(cfg, Final(cfg, s, run), h, lease, since)
    decreases |run|
  {
    if run != [] {
      KeepsWatching(cfg, Apply(cfg, s, run[0]), run[1..], h, lease, since);
    }
  }

  lemma {:induction false} FirstLook(cfg: Config, s: System, h: Identity, first: int, lease: Lease)
    requires Enabled(cfg, s, Decides(h, first)) && s.replicas[h].phase.result == Some(lease) && ReplicaInv(cfg, s, h, s.replicas[h])
    ensures Watches(cfg, Apply(cfg, s, Decides(h, first)), h, lease, s.now)
  {
  }

  lemma {:induction false} WatcherChallenges(cfg: Config, u: System, h: Identity, stamp: int, lease: Lease, from: int) returns (since: int)
    requires Watches(cfg, u, h, lease, from) && u.replicas[h].phase == Read(Some(lease))
    requires lease.Live() ==> u.now >= from + lease.duration.value
    ensures Enabled(cfg, u, Decides(h, stamp)) && since <= from
    ensures Sends(u, Apply(cfg, u, Decides(h, stamp)), h, Takeover(h, u.nextId, stamp, lease.version, since, u.now))
  {
    since := u.replicas[h].observedAt - cfg.offsets[h];
  }

  /**
   A standby that looks at an unchanging lease a second time, its duration or more after the first, sends a takeover of it,
   whatever happened in between.
   */
  lemma {:induction false} SilentLeaderIsChallenged(cfg: Config, s: System, h: Identity, first: int, mid: seq<Action>, second: int, lease: Lease)
    requires Inv(cfg, s)
    requires Enabled(cfg, s, Decides(h, first)) && s.replicas[h].phase.result == Some(lease)
    requires var t := Apply(cfg, s, Decides(h, first)); Legal(cfg, t, mid) && Steady(cfg, t, mid, h, lease)
    requires var u := Final(cfg, Apply(cfg, s, Decides(h, first)), mid);
             && h in u.replicas && u.replicas[h].phase == Read(Some(lease))
             && (lease.Live() ==> u.now >= s.now + lease.duration.value)
    ensures var u := Final(cfg, Apply(cfg, s, Decides(h, first)), mid);
            && Enabled(cfg, u, Decides(h, second))
            && exists since :: since <= s.now &&
                 Sends(u, Apply(cfg, u, Decides(h, second)), h, Takeover(h, u.nextId, second, lease.version, since, u.now))
  {
    var t := Apply(cfg, s, Decides(h, first));
    FirstLook(cfg, s, h, first, lease);
    KeepsWatching(cfg, t, mid, h, lease, s.now);
    var since := WatcherChallenges(cfg, Final(cfg, t, mid), h, second, lease, s.now);
  }

  predicate AllByOthers(run: seq<Action>, h: Identity) {
    forall i :: 0 <= i < |run| ==> ByOther(run[i], h)
  }

  lemma {:induction false} OthersLeaveAlone(cfg: Config, s: System, run: seq<Action>, h: Identity, request: Request)
    requires Legal(cfg, s, run) && AllByOthers(run, h) && h in s.replicas && request in s.inFlight && request.who == h
    ensures var t := Final(cfg, s, run); h in t.replicas && t.replicas[h] == s.replicas[h] && request in t.inFlight
    decreases |run|
  {
    if run != [] {
      assert ByOther(run[0], h);
      OthersLeaveAlone(cfg, Apply(cfg, s, run[0]), run[1..], h, request);
    }
  }

  /** The lease as `h` writes it: in its name, stamped, and good for its duration in whole seconds. */
  predicate WrittenBy(cfg: Config, lease: Option<Lease>, h: Identity, stamp: int) {
    && lease.Some? && lease.value.holder == h && lease.value.renewTime == Some(stamp) && lease.value.duration.Some?
    && h in cfg.durations && lease.value.duration.value % 1000 == 0
    && lease.value.duration.value <= cfg.durations[h] < lease.value.duration.value + 1000
  }

  /** The request of `h`, landing now and answered, is granted and makes or keeps it leader. */
  predicate Wins(cfg: Config, s: System, h: Identity, request: Request) {
    && Enabled(cfg, s, Lands(request, true))
    && var u := Apply(cfg, s, Lands(request, true));
       && WrittenBy(cfg, u.lease, h, request.stamp)
       && h in u.replicas && u.replicas[h].isLeader
       && (s.replicas[h].phase.Claiming? ==> u.replicas[h].phase == Acquired(u.lease.value.version))
       && (s.replicas[h].phase.Renewing? ==>
             u.replicas[h].phase == Holding(u.lease.value.version) && u.replicas[h].lastOk == request.stamp)
  }

  /** A claim sent, whatever the others do meanwhile, wins if what it claims is still free when it lands. */
  lemma {:induction false} ClaimWins(cfg: Config, s: System, h: Identity, request: Request, run: seq<Action>)
    requires h in s.replicas && h in cfg.durations && s.replicas[h].phase == Claiming(request.id) && request.who == h
    requires request in s.inFlight && Legal(cfg, s, run) && AllByOthers(run, h) && Accepted(Final(cfg, s, run), request)
    ensures Wins(cfg, Final(cfg, s, run), h, request)
  {
    OthersLeaveAlone(cfg, s, run, h, request);
  }

  /** A leader that reads its own lease renews it, and wins if the lease is still that one when the request lands. */
  lemma {:induction false} LeaderCanRenew(cfg: Config, s: System, h: Identity, wall: int, run: seq<Action>)
    requires h in cfg.durations && Enabled(cfg, s, HolderReads(h, true, wall)) && s.replicas[h].isLeader
    requires s.lease.Some? && s.lease.value.holder == h
    requires var t := Apply(cfg, s, HolderReads(h, true, wall));
             Enabled(cfg, t, Renews(h)) ==>
               && Legal(cfg, Apply(cfg, t, Renews(h)), run) && AllByOthers(run, h)
               && Final(cfg, Apply(cfg, t, Renews(h)), run).lease == s.lease
    ensures var t := Apply(cfg, s, HolderReads(h, true, wall));
            && Enabled(cfg, t, Renews(h))
            && Wins(cfg, Final(cfg, Apply(cfg, t, Renews(h)), run), h, Renewal(h, s.nextId, wall, s.lease.value.version))
  {
    var t := Apply(cfg, s, HolderReads(h, true, wall));
    OthersLeaveAlone(cfg, Apply(cfg, t, Renews(h)), run, h, Renewal(h, s.nextId, wall, s.lease.value.version));
  }

  /** A leader that cannot read its lease still renews the version it last knew. */
  lemma {:induction false} BlindLeaderCanRenew(cfg: Config, s: System, h: Identity, wall: int)
    requires Enabled(cfg, s, HolderReads(h, false, wall))
    ensures var t := Apply(cfg, s, HolderReads(h, false, wall));
            && Enabled(cfg, t, Renews(h))
            && Sends(t, Apply(cfg, t, Renews(h)), h, Renewal(h, s.nextId, wall, s.replicas[h].phase.version))
  {
  }
}
