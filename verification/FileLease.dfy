/**
 The file-lease coordinator (src/sf2loki/coordinate/file_lease.py) as a timed protocol.

 Replicas share one lease file. Every await in the coordinator ends an atomic step, and so does the
 gap between reading the lease and renaming the new one over it. Each step carries the value its
 replica's wall clock showed, and nothing relates those values to real time: the theorems hold for
 any clock skew. Real time `now` enters only through the sleeps and the read-to-write gap.
 */
module FileLease {
  import opened Options

  type Holder = string

  datatype Lease = Lease(holder: Holder, expiresAt: int, epoch: int) {
    predicate Expired(clock: int) {
      clock >= expiresAt
    }
  }

  /** What one read of the lease yields; an absent or corrupt file reads as `Readable(None)`. */
  datatype ReadResult = Unreadable | Readable(lease: Option<Lease>) {
    /** The lease `_hold` works with: an unreadable file counts as no lease. */
    function Known(): Option<Lease> {
      if Readable? then lease else None
    }
  }

  /** A write can fail before the rename, or report failure although the rename landed. */
  datatype WriteOutcome = Landed | LandedUnreported | NotLanded

  // Milliseconds.
  const VERIFY_MIN: int := 50
  const VERIFY_MAX: int := 1000

  function VerifyDelay(renew: int): int {
    var tenth := renew / 10;
    var floored := if tenth < VERIFY_MIN then VERIFY_MIN else tenth;
    if floored > VERIFY_MAX then VERIFY_MAX else floored
  }

  /** Where a replica stands. `readAt` and `seen` record when it read the file, and which write it saw. */
  datatype Phase =
    | Standby
    | Contesting(clock: int, newEpoch: int, readAt: int, seen: nat)
    | Verifying(wroteAt: int)
    | Acquired
    | Holding
    | Rechecking(failedAt: int)
    | Renewing(clock: int, readAt: int, seen: nat)

  datatype Replica = Replica(phase: Phase, isLeader: bool, epoch: int, lastOk: int)

  const FRESH := Replica(Standby, false, 0, 0)

  function Surrendered(r: Replica): Replica {
    r.(phase := Standby, isLeader := false)
  }

  // ----- one replica's reaction to each step -----

  function AfterContestRead(r: Replica, result: ReadResult, clock: int, at: int, version: nat): Replica {
    match result
    case Unreadable => r
    case Readable(lease) =>
      if lease.None? then r.(phase := Contesting(clock, 1, at, version))
      else if lease.value.Expired(clock) then r.(phase := Contesting(clock, lease.value.epoch + 1, at, version))
      else r
  }

  function AfterContestWrite(r: Replica, outcome: WriteOutcome, at: int): Replica {
    r.(phase := if outcome.Landed? then Verifying(at) else Standby)
  }

  function AfterVerifyRead(h: Holder, r: Replica, result: ReadResult, clock: int): Replica {
    match result.Known()
    case Some(lease) =>
      if lease.holder == h && !lease.Expired(clock)
      then r.(phase := Acquired, isLeader := true, epoch := lease.epoch)
      else r.(phase := Standby)
    case None => r.(phase := Standby)
  }

  function AfterStartHold(r: Replica, clock: int): Replica {
    r.(phase := Holding, lastOk := clock)
  }

  function AfterHoldRead(h: Holder, r: Replica, result: ReadResult, clock: int, at: int, version: nat): Replica {
    match result.Known()
    case Some(lease) => if lease.holder != h then Surrendered(r) else r.(phase := Renewing(clock, at, version))
    case None => r.(phase := Rechecking(at))
  }

  function AfterRecheck(h: Holder, r: Replica, result: ReadResult, clock: int, at: int, version: nat): Replica {
    match result.Known()
    case Some(lease) => if lease.holder != h then Surrendered(r) else r.(phase := Renewing(clock, at, version))
    case None => r.(phase := Renewing(clock, at, version)) // rewrites a lease it has not seen
  }

  function AfterRenewWrite(r: Replica, outcome: WriteOutcome, ttl: int): Replica
    requires r.phase.Renewing?
  {
    if outcome.Landed? then r.(phase := Holding, lastOk := r.phase.clock)
    else if r.phase.clock - r.lastOk >= ttl then Surrendered(r)
    else r.(phase := Holding)
  }

  // ----- the whole system -----

  datatype Timing = Timing(ttl: int, renew: int)

  /** `gap` bounds every read-to-write gap; it is a hypothesis, not a setting of the program. */
  datatype Config = Config(gap: int, timing: map<Holder, Timing>) {
    predicate Valid() {
      forall h :: h in timing ==> gap <= VerifyDelay(timing[h].renew)
    }
  }

  datatype Acquisition = Acquisition(holder: Holder, epoch: int)

  /** `version` counts the writes that landed, `writtenAt` dates the last one, `confirmed` is the history. */
  datatype System = System(
    now: int,
    file: Option<Lease>,
    version: nat,
    writtenAt: int,
    replicas: map<Holder, Replica>,
    confirmed: seq<Acquisition>)

  datatype Action =
    | Tick(elapsed: nat)
    | DeleteFile
    | ContestRead(who: Holder, clock: int, ok: bool)
    | ContestWrite(who: Holder, outcome: WriteOutcome)
    | VerifyRead(who: Holder, clock: int, ok: bool)
    | StartHold(who: Holder, clock: int)
    | HoldRead(who: Holder, clock: int, ok: bool)
    | Recheck(who: Holder, clock: int, ok: bool)
    | RenewWrite(who: Holder, outcome: WriteOutcome)
    | Halt(who: Holder)

  function Read(s: System, ok: bool): ReadResult {
    if ok then Readable(s.file) else Unreadable
  }

  predicate Init(cfg: Config, s: System) {
    && s.replicas.Keys == cfg.timing.Keys
    && (forall h :: h in s.replicas ==> s.replicas[h] == FRESH)
    && s.writtenAt <= s.now
    && s.confirmed == []
  }

  predicate Enabled(cfg: Config, s: System, a: Action)
  {
    if a.Tick? || a.DeleteFile? then true
    else if a.who !in s.replicas || a.who !in cfg.timing then false
    else
      var phase := s.replicas[a.who].phase;
      var delay := VerifyDelay(cfg.timing[a.who].renew);
      match a
      case ContestRead(_, _, _) => phase.Standby?
      case ContestWrite(_, _) => phase.Contesting?
      case VerifyRead(_, _, _) => phase.Verifying? && s.now >= phase.wroteAt + delay
      case StartHold(_, _) => phase.Acquired?
      case HoldRead(_, _, _) => phase.Holding?
      case Recheck(_, _, _) => phase.Rechecking? && s.now >= phase.failedAt + delay
      case RenewWrite(_, _) => phase.Renewing?
      case Halt(_) => true
  }

  function Move(s: System, h: Holder, r: Replica): System {
    s.(replicas := s.replicas[h := r])
  }

  /** The rename: `h`'s document replaces whatever the file held. */
  function Write(s: System, h: Holder, clock: int, ttl: int, epoch: int): System {
    s.(file := Some(Lease(h, clock + ttl, epoch)), version := s.version + 1, writtenAt := s.now)
  }

  function Apply(cfg: Config, s: System, a: Action): System
    requires Enabled(cfg, s, a)
  {
    match a
    case Tick(elapsed) => s.(now := s.now + elapsed)
    case DeleteFile => s.(file := None, version := s.version + 1, writtenAt := s.now)
    case ContestRead(h, clock, ok) =>
      Move(s, h, AfterContestRead(s.replicas[h], Read(s, ok), clock, s.now, s.version))
    case ContestWrite(h, outcome) =>
      var r := s.replicas[h];
      var written := if outcome.NotLanded? then s else Write(s, h, r.phase.clock, cfg.timing[h].ttl, r.phase.newEpoch);
      Move(written, h, AfterContestWrite(r, outcome, s.now))
    case VerifyRead(h, clock, ok) =>
      var r := AfterVerifyRead(h, s.replicas[h], Read(s, ok), clock);
      var next := Move(s, h, r);
      if r.isLeader then next.(confirmed := s.confirmed + [Acquisition(h, r.epoch)]) else next
    case StartHold(h, clock) => Move(s, h, AfterStartHold(s.replicas[h], clock))
    case HoldRead(h, clock, ok) =>
      Move(s, h, AfterHoldRead(h, s.replicas[h], Read(s, ok), clock, s.now, s.version))
    case Recheck(h, clock, ok) =>
      Move(s, h, AfterRecheck(h, s.replicas[h], Read(s, ok), clock, s.now, s.version))
    case RenewWrite(h, outcome) =>
      var r := s.replicas[h];
      var written := if outcome.NotLanded? then s else Write(s, h, r.phase.clock, cfg.timing[h].ttl, r.epoch);
      Move(written, h, AfterRenewWrite(r, outcome, cfg.timing[h].ttl))
    case Halt(h) => Move(s, h, FRESH)
  }

  /** The hypotheses of the theorem: timely writes, no deletion, no two failed reads in a row while renewing. */
  predicate Disciplined(cfg: Config, s: System, a: Action)
    requires Enabled(cfg, s, a)
  {
    match a
    case DeleteFile => false
    case ContestWrite(h, outcome) => outcome.NotLanded? || s.now - s.replicas[h].phase.readAt < cfg.gap
    case RenewWrite(h, outcome) => outcome.NotLanded? || s.now - s.replicas[h].phase.readAt < cfg.gap
    case Recheck(_, _, ok) => ok && s.file.Some?
    case _ => true
  }

  predicate Legal(cfg: Config, s: System, run: seq<Action>)
    decreases |run|
  {
    run == [] || (Enabled(cfg, s, run[0]) && Legal(cfg, Apply(cfg, s, run[0]), run[1..]))
  }

  predicate AllDisciplined(cfg: Config, s: System, run: seq<Action>)
    requires Legal(cfg, s, run)
    decreases |run|
  {
    run == [] || (Disciplined(cfg, s, run[0]) && AllDisciplined(cfg, Apply(cfg, s, run[0]), run[1..]))
  }

  function Final(cfg: Config, s: System, run: seq<Action>): System
    requires Legal(cfg, s, run)
    decreases |run|
  {
    if run == [] then s else Final(cfg, Apply(cfg, s, run[0]), run[1..])
  }

  // ----- the invariant -----

  predicate Increasing(log: seq<Acquisition>) {
    forall i, j :: 0 <= i < j < |log| ==> log[i].epoch < log[j].epoch
  }

  /** `epoch` is newer than every confirmed acquisition. */
  predicate Newer(s: System, epoch: int) {
    s.confirmed != [] ==> epoch > s.confirmed[|s.confirmed| - 1].epoch
  }

  /** `epoch` is at least as new as every confirmed acquisition. */
  predicate Current(s: System, epoch: int) {
    s.confirmed != [] ==> epoch >= s.confirmed[|s.confirmed| - 1].epoch
  }

  /** A read is either of the present content, or older than the last write. */
  predicate ReadConsistent(s: System, readAt: int, seen: nat) {
    && seen <= s.version
    && readAt <= s.now
    && (seen < s.version ==> readAt <= s.writtenAt)
  }

  predicate HeldBy(s: System, h: Holder) {
    s.file.Some? && s.file.value.holder == h
  }

  predicate ReplicaInv(cfg: Config, s: System, h: Holder, r: Replica) {
    && (r.isLeader <==> r.phase.Acquired? || r.phase.Holding? || r.phase.Rechecking? || r.phase.Renewing?)
    && (r.isLeader && HeldBy(s, h) ==> s.file.value.epoch == r.epoch)
    && match r.phase
       case Contesting(_, newEpoch, readAt, seen) =>
         && ReadConsistent(s, readAt, seen)
         && (seen == s.version ==> newEpoch == (if s.file.Some? then s.file.value.epoch else 0) + 1)
         && (s.now - readAt < cfg.gap ==> Newer(s, newEpoch))
       case Verifying(wroteAt) =>
         HeldBy(s, h) ==> s.writtenAt == wroteAt && Newer(s, s.file.value.epoch)
       case Renewing(_, readAt, seen) =>
         && ReadConsistent(s, readAt, seen)
         && (seen == s.version ==> HeldBy(s, h))
         && (s.now - readAt < cfg.gap ==> Current(s, r.epoch))
       case _ => true
  }

  predicate Inv(cfg: Config, s: System) {
    && cfg.Valid()
    && s.replicas.Keys == cfg.timing.Keys
    && s.writtenAt <= s.now
    && Increasing(s.confirmed)
    && (s.confirmed != [] ==> s.file.Some? && Current(s, s.file.value.epoch))
    && forall h :: h in s.replicas ==> ReplicaInv(cfg, s, h, s.replicas[h])
  }

  lemma {:induction false} InitInv(cfg: Config, s: System)
    requires cfg.Valid() && Init(cfg, s)
    ensures Inv(cfg, s)
  {
  }

  /** A verifying read that finds its own lease: every write still able to land has read that very lease. */
  lemma {:induction false} ConfirmKeepsInv(cfg: Config, s: System, h: Holder, clock: int)
    requires Inv(cfg, s) && Enabled(cfg, s, VerifyRead(h, clock, true))
    requires HeldBy(s, h) && !s.file.value.Expired(clock)
    ensures Inv(cfg, Apply(cfg, s, VerifyRead(h, clock, true)))
  {
    var t := Apply(cfg, s, VerifyRead(h, clock, true));
    assert ReplicaInv(cfg, s, h, s.replicas[h]);
    forall k | k in t.replicas
      ensures ReplicaInv(cfg, t, k, t.replicas[k])
    {
      assert ReplicaInv(cfg, s, k, s.replicas[k]);
    }
  }

  /** A step that leaves the file alone only has to look after the replica it moves. */
  lemma {:induction false} MoveKeepsInv(cfg: Config, s: System, h: Holder, r: Replica)
    requires Inv(cfg, s) && h in s.replicas && ReplicaInv(cfg, s, h, r)
    ensures Inv(cfg, Move(s, h, r))
  {
    var t := Move(s, h, r);
    forall k | k in t.replicas
      ensures ReplicaInv(cfg, t, k, t.replicas[k])
    {
      assert k != h ==> ReplicaInv(cfg, s, k, s.replicas[k]);
    }
  }

  lemma {:induction false} TickKeepsInv(cfg: Config, s: System, elapsed: nat)
    requires Inv(cfg, s)
    ensures Inv(cfg, s.(now := s.now + elapsed))
  {
    var t := s.(now := s.now + elapsed);
    forall k | k in t.replicas
      ensures ReplicaInv(cfg, t, k, t.replicas[k])
    {
      assert ReplicaInv(cfg, s, k, s.replicas[k]);
    }
  }

  /** A timely write: every other replica's read is now older than the file. */
  lemma {:induction false} WriteKeepsInv(cfg: Config, s: System, h: Holder, clock: int, ttl: int, epoch: int, r: Replica)
    requires Inv(cfg, s) && h in s.replicas && Current(s, epoch)
    requires r.phase.Verifying? ==> !r.isLeader && r.phase.wroteAt == s.now && Newer(s, epoch)
    requires r.phase.Holding? ==> r.isLeader && r.epoch == epoch
    requires r.phase.Standby? ==> !r.isLeader
    requires r.phase.Verifying? || r.phase.Holding? || r.phase.Standby?
    ensures Inv(cfg, Move(Write(s, h, clock, ttl, epoch), h, r))
  {
    var t := Move(Write(s, h, clock, ttl, epoch), h, r);
    forall k | k in t.replicas
      ensures ReplicaInv(cfg, t, k, t.replicas[k])
    {
      assert k != h ==> ReplicaInv(cfg, s, k, s.replicas[k]);
    }
  }

  lemma {:induction false} StepKeepsInv(cfg: Config, s: System, a: Action)
    requires Inv(cfg, s) && Enabled(cfg, s, a) && Disciplined(cfg, s, a)
    ensures Inv(cfg, Apply(cfg, s, a))
  {
    if a.Tick? {
      TickKeepsInv(cfg, s, a.elapsed);
    } else {
      var r := s.replicas[a.who];
      assert ReplicaInv(cfg, s, a.who, r);
      match a
      case ContestWrite(h, outcome) =>
        var after := AfterContestWrite(r, outcome, s.now);
        if outcome.NotLanded? {
          MoveKeepsInv(cfg, s, h, after);
        } else {
          WriteKeepsInv(cfg, s, h, r.phase.clock, cfg.timing[h].ttl, r.phase.newEpoch, after);
        }
      case RenewWrite(h, outcome) =>
        var after := AfterRenewWrite(r, outcome, cfg.timing[h].ttl);
        if outcome.NotLanded? {
          MoveKeepsInv(cfg, s, h, after);
        } else {
          WriteKeepsInv(cfg, s, h, r.phase.clock, cfg.timing[h].ttl, r.epoch, after);
        }
      case VerifyRead(h, clock, ok) =>
        if ok && HeldBy(s, h) && !s.file.value.Expired(clock) {
          ConfirmKeepsInv(cfg, s, h, clock);
        } else {
          MoveKeepsInv(cfg, s, h, AfterVerifyRead(h, r, Read(s, ok), clock));
        }
      case ContestRead(h, clock, ok) =>
        MoveKeepsInv(cfg, s, h, AfterContestRead(r, Read(s, ok), clock, s.now, s.version));
      case StartHold(h, clock) =>
        MoveKeepsInv(cfg, s, h, AfterStartHold(r, clock));
      case HoldRead(h, clock, ok) =>
        MoveKeepsInv(cfg, s, h, AfterHoldRead(h, r, Read(s, ok), clock, s.now, s.version));
      case Recheck(h, clock, ok) =>
        MoveKeepsInv(cfg, s, h, AfterRecheck(h, r, Read(s, ok), clock, s.now, s.version));
      case Halt(h) =>
        MoveKeepsInv(cfg, s, h, FRESH);
    }
  }

  lemma {:induction false} RunKeepsInv(cfg: Config, s: System, run: seq<Action>)
    requires Inv(cfg, s) && Legal(cfg, s, run) && AllDisciplined(cfg, s, run)
    ensures Inv(cfg, Final(cfg, s, run))
    decreases |run|
  {
    if run != [] {
      StepKeepsInv(cfg, s, run[0]);
      RunKeepsInv(cfg, Apply(cfg, s, run[0]), run[1..]);
    }
  }

  /** In every disciplined run the confirmed epochs strictly increase, so no two acquisitions share one. */
  lemma {:induction false} ConfirmedEpochsIncrease(cfg: Config, s: System, run: seq<Action>)
    requires cfg.Valid() && Init(cfg, s)
    requires Legal(cfg, s, run) && AllDisciplined(cfg, s, run)
    ensures var log := Final(cfg, s, run).confirmed;
            forall i, j :: 0 <= i < j < |log| ==> log[i].epoch < log[j].epoch
  {
    InitInv(cfg, s);
    RunKeepsInv(cfg, s, run);
  }

  // ----- the coordinator object -----

  /** The shared file; `writes` counts the renames that landed. */
  class LeaseFile {
    var lease: Option<Lease>
    var writes: nat

    constructor ()
      ensures lease == None && writes == 0
    {
      lease := None;
      writes := 0;
    }
  }

  /**
   One replica's coordinator. A method is the code between two suspension points of `_acquire` or
   `_hold`; `phase` stands for the suspended coroutine. `now` is real time and is only remembered.
   */
  class FileLeaseCoordinator {
    const holder: Holder
    const ttl: int
    var phase: Phase
    var isLeader: bool
    var epoch: int
    var lastOk: int

    constructor (holder: Holder, ttl: int)
      ensures this.holder == holder && this.ttl == ttl && View() == FRESH
    {
      this.holder, this.ttl := holder, ttl;
      phase, isLeader, epoch, lastOk := Standby, false, 0, 0;
    }

    function View(): Replica
      reads this
    {
      Replica(phase, isLeader, epoch, lastOk)
    }

    method WriteFile(file: LeaseFile, clock: int, asEpoch: int, outcome: WriteOutcome) returns (raised: bool)
      modifies file
      ensures raised <==> !outcome.Landed?
      ensures file.lease == (if outcome.NotLanded? then old(file.lease) else Some(Lease(holder, clock + ttl, asEpoch)))
      ensures file.writes == old(file.writes) + if outcome.NotLanded? then 0 else 1
    {
      if !outcome.NotLanded? {
        file.lease := Some(Lease(holder, clock + ttl, asEpoch));
        file.writes := file.writes + 1;
      }
      raised := !outcome.Landed?;
    }

    method ContestReadStep(file: LeaseFile, ok: bool, clock: int, now: int)
      requires phase.Standby?
      modifies this
      ensures View() == AfterContestRead(old(View()), if ok then Readable(file.lease) else Unreadable, clock, now, file.writes)
    {
      var result := if ok then Readable(file.lease) else Unreadable;
      if result.Unreadable? {
        return; // cannot tell whether a holder is live: back off without contesting
      }
      var lease := result.lease;
      if lease.None? || lease.value.Expired(clock) {
        var superseded := if lease.Some? then lease.value.epoch else 0;
        phase := Contesting(clock, superseded + 1, now, file.writes);
      }
    }

    method ContestWriteStep(file: LeaseFile, outcome: WriteOutcome, now: int)
      requires phase.Contesting?
      modifies this, file
      ensures View() == AfterContestWrite(old(View()), outcome, now)
      ensures file.lease == if outcome.NotLanded? then old(file.lease)
                            else Some(Lease(holder, old(phase).clock + ttl, old(phase).newEpoch))
      ensures file.writes == old(file.writes) + if outcome.NotLanded? then 0 else 1
    {
      var raised := WriteFile(file, phase.clock, phase.newEpoch, outcome);
      if raised {
        phase := Standby;
      } else {
        phase := Verifying(now);
      }
    }

    method VerifyReadStep(file: LeaseFile, ok: bool, clock: int)
      requires phase.Verifying?
      modifies this
      ensures View() == AfterVerifyRead(holder, old(View()), if ok then Readable(file.lease) else Unreadable, clock)
    {
      var result := if ok then Readable(file.lease) else Unreadable;
      var confirm := result.Known();
      if confirm.Some? && confirm.value.holder == holder && !confirm.value.Expired(clock) {
        epoch := confirm.value.epoch;
        isLeader := true;
        phase := Acquired;
      } else {
        phase := Standby;
      }
    }

    method StartHoldStep(clock: int)
      requires phase.Acquired?
      modifies this
      ensures View() == AfterStartHold(old(View()), clock)
    {
      lastOk := clock;
      phase := Holding;
    }

    method Surrender()
      modifies this
      ensures View() == Surrendered(old(View()))
    {
      isLeader := false;
      phase := Standby;
    }

    method HoldReadStep(file: LeaseFile, ok: bool, clock: int, now: int)
      requires phase.Holding?
      modifies this
      ensures View() == AfterHoldRead(holder, old(View()), if ok then Readable(file.lease) else Unreadable, clock, now, file.writes)
    {
      var result := if ok then Readable(file.lease) else Unreadable;
      var lease := result.Known();
      if lease.Some? && lease.value.holder != holder {
        Surrender();
      } else if lease.None? {
        phase := Rechecking(now);
      } else {
        phase := Renewing(clock, now, file.writes);
      }
    }

    method RecheckStep(file: LeaseFile, ok: bool, clock: int, now: int)
      requires phase.Rechecking?
      modifies this
      ensures View() == AfterRecheck(holder, old(View()), if ok then Readable(file.lease) else Unreadable, clock, now, file.writes)
    {
      var result := if ok then Readable(file.lease) else Unreadable;
      var verify := result.Known();
      if verify.Some? && verify.value.holder != holder {
        Surrender();
      } else {
        phase := Renewing(clock, now, file.writes);
      }
    }

    method RenewWriteStep(file: LeaseFile, outcome: WriteOutcome)
      requires phase.Renewing?
      modifies this, file
      ensures View() == AfterRenewWrite(old(View()), outcome, ttl)
      ensures file.lease == if outcome.NotLanded? then old(file.lease) else Some(Lease(holder, old(phase).clock + ttl, old(epoch)))
      ensures file.writes == old(file.writes) + if outcome.NotLanded? then 0 else 1
    {
      var clock := phase.clock;
      var raised := WriteFile(file, clock, epoch, outcome);
      if !raised {
        lastOk := clock;
        phase := Holding;
      } else if clock - lastOk >= ttl {
        Surrender();
      } else {
        phase := Holding;
      }
    }
  }
}
