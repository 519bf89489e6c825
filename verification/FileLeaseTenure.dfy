/**
 The tenure of a file-lease leader (src/sf2loki/coordinate/file_lease.py): exactly which steps begin and end it, that an
 unchallenged replica can always take the next one, and that a leader seen to renew in time keeps the file.
 */
module FileLeaseTenure {
  import opened Options
  import opened FileLease

  // ----- what the actions of a run say about one replica -----

  /** Own clock at the last look at the file, and at the look of the last renewal that succeeded (or at the start). */
  datatype Notes = Notes(looked: int, renewed: int)

  function Noted(m: Notes, h: Holder, a: Action): Notes {
    match a
    case StartHold(who, clock) => if who == h then m.(renewed := clock) else m
    case HoldRead(who, clock, _) => if who == h then m.(looked := clock) else m
    case Recheck(who, clock, _) => if who == h then m.(looked := clock) else m
    case RenewWrite(who, outcome) => if who == h && outcome.Landed? then m.(renewed := m.looked) else m
    case _ => m
  }

  function NotedAll(m: Notes, h: Holder, run: seq<Action>): Notes
    decreases |run|
  {
    if run == [] then m else NotedAll(Noted(m, h, run[0]), h, run[1..])
  }

  predicate Leading(r: Replica) {
    r.phase.Acquired? || r.phase.Holding? || r.phase.Rechecking? || r.phase.Renewing?
  }

  /** The replica is where its notes say it is. */
  predicate Keeps(r: Replica, m: Notes) {
    && (r.isLeader <==> Leading(r))
    && (r.isLeader && !r.phase.Acquired? ==> r.lastOk == m.renewed)
    && (r.phase.Renewing? ==> r.phase.clock == m.looked)
  }

  lemma {:induction false} StepKeepsNotes(cfg: Config, s: System, a: Action, h: Holder, m: Notes)
    requires Enabled(cfg, s, a) && h in s.replicas && Keeps(s.replicas[h], m)
    ensures h in Apply(cfg, s, a).replicas && Keeps(Apply(cfg, s, a).replicas[h], Noted(m, h, a))
  {
  }

  lemma {:induction false} RunKeepsNotes(cfg: Config, s: System, run: seq<Action>, h: Holder, m: Notes)
    requires Legal(cfg, s, run) && h in s.replicas && Keeps(s.replicas[h], m)
    ensures h in Final(cfg, s, run).replicas && Keeps(Final(cfg, s, run).replicas[h], NotedAll(m, h, run))
    decreases |run|
  {
    if run != [] {
      StepKeepsNotes(cfg, s, run[0], h, m);
      RunKeepsNotes(cfg, Apply(cfg, s, run[0]), run[1..], h, Noted(m, h, run[0]));
    }
  }

  const BLANK := Notes(0, 0)

  /** The lease on file is somebody else's. */
  predicate Foreign(s: System, h: Holder) {
    s.file.Some? && s.file.value.holder != h
  }

  /** The renewal that replica `h` tries now comes a ttl or more after its last successful one. */
  predicate Overdue(cfg: Config, m: Notes, h: Holder) {
    h in cfg.timing && m.looked - m.renewed >= cfg.timing[h].ttl
  }

  /** What ends a tenure: a stop, a foreign holder seen on file, or a failed renewal a full ttl after the last success. */
  predicate EndsTenure(cfg: Config, s: System, m: Notes, h: Holder, a: Action) {
    || a == Halt(h)
    || ((a.HoldRead? || a.Recheck?) && a.who == h && a.ok && Foreign(s, h))
    || (a.RenewWrite? && a.who == h && !a.outcome.Landed? && Overdue(cfg, m, h))
  }

  /** What begins one: a verify read that finds the own, unexpired lease. */
  predicate BeginsTenure(s: System, h: Holder, a: Action) {
    a.VerifyRead? && a.who == h && a.ok && HeldBy(s, h) && !s.file.value.Expired(a.clock)
  }

  /**
   In every run, disciplined or not: a leader stops leading exactly when it is stopped, reads a foreign holder, or fails
   to renew although its last success is a ttl ago, and a replica starts leading exactly when it verifies its claim.
   */
  lemma {:induction false} TenureChangesExactly(cfg: Config, start: System, run: seq<Action>, h: Holder, a: Action)
    requires Init(cfg, start) && Legal(cfg, start, run) && h in start.replicas && Enabled(cfg, Final(cfg, start, run), a)
    ensures var s := Final(cfg, start, run);
            var t := Apply(cfg, s, a);
            && h in s.replicas && h in t.replicas
            && (s.replicas[h].isLeader ==>
                  (!t.replicas[h].isLeader <==> EndsTenure(cfg, s, NotedAll(BLANK, h, run), h, a)))
            && (!s.replicas[h].isLeader ==> (t.replicas[h].isLeader <==> BeginsTenure(s, h, a)))
  {
    RunKeepsNotes(cfg, start, run, h, BLANK);
  }

  /** The surrender rule alone: after any try to renew, the replica leads exactly if the write succeeded or was not overdue. */
  lemma {:induction false} SurrendersExactly(cfg: Config, start: System, run: seq<Action>, h: Holder, outcome: WriteOutcome)
    requires Init(cfg, start) && Legal(cfg, start, run) && h in start.replicas
    requires Enabled(cfg, Final(cfg, start, run), RenewWrite(h, outcome))
    ensures var m := NotedAll(BLANK, h, run);
            var r := Apply(cfg, Final(cfg, start, run), RenewWrite(h, outcome)).replicas[h];
            && (r.isLeader <==> outcome.Landed? || m.looked - m.renewed < cfg.timing[h].ttl)
            && r.phase == (if r.isLeader then Holding else Standby)
  {
    RunKeepsNotes(cfg, start, run, h, BLANK);
  }

  // ----- an unchallenged replica makes progress -----

  predicate ByOther(a: Action, h: Holder) {
    a.Tick? || a.DeleteFile? || a.who != h
  }

  /** Others may act as they like, but nothing is written. */
  predicate Quiet(cfg: Config, s: System, run: seq<Action>, h: Holder)
    requires Legal(cfg, s, run)
    decreases |run|
  {
    run == [] ||
    (ByOther(run[0], h) && Apply(cfg, s, run[0]).version == s.version && Quiet(cfg, Apply(cfg, s, run[0]), run[1..], h))
  }

  lemma {:induction false} QuietKeeps(cfg: Config, s: System, run: seq<Action>, h: Holder)
    requires Legal(cfg, s, run) && Quiet(cfg, s, run, h) && h in s.replicas
    ensures var t := Final(cfg, s, run);
            && h in t.replicas && t.replicas[h] == s.replicas[h]
            && t.file == s.file && t.version == s.version && t.writtenAt == s.writtenAt
    decreases |run|
  {
    if run != [] {
      QuietKeeps(cfg, Apply(cfg, s, run[0]), run[1..], h);
    }
  }

  /** The pause before a claim is verified: a tenth of the renew interval, but never under 50 ms nor over a second. */
  lemma {:induction false} DelayIsClamped(renew: int)
    ensures 50 <= VerifyDelay(renew) <= 1000
    ensures 500 <= renew <= 10000 ==> VerifyDelay(renew) <= renew / 10 < VerifyDelay(renew) + 1
    ensures renew < 500 ==> VerifyDelay(renew) == 50
    ensures renew > 10000 ==> VerifyDelay(renew) == 1000
  {
  }

  predicate Claimable(s: System, clock: int) {
    s.file.None? || s.file.value.Expired(clock)
  }

  /** A standby contests exactly what it can read and finds absent or expired on its clock. */
  lemma {:induction false} ContestsExactly(cfg: Config, s: System, h: Holder, clock: int, ok: bool)
    requires Enabled(cfg, s, ContestRead(h, clock, ok))
    ensures var r := Apply(cfg, s, ContestRead(h, clock, ok)).replicas[h];
            r.phase.Contesting? <==> ok && Claimable(s, clock)
    ensures !(ok && Claimable(s, clock)) ==> Apply(cfg, s, ContestRead(h, clock, ok)) == s
  {
    var t := Apply(cfg, s, ContestRead(h, clock, ok));
    assert !(ok && Claimable(s, clock)) ==> t.replicas == s.replicas;
  }

  /** The claim that follows can always be written, and is the claim of the next epoch for one ttl. */
  lemma {:induction false} ClaimIsWritten(cfg: Config, s: System, h: Holder, clock: int, q: seq<Action>)
    requires Enabled(cfg, s, ContestRead(h, clock, true)) && Claimable(s, clock)
    requires var t := Apply(cfg, s, ContestRead(h, clock, true)); Legal(cfg, t, q) && Quiet(cfg, t, q, h)
    ensures var u := Final(cfg, Apply(cfg, s, ContestRead(h, clock, true)), q);
            var next := if s.file.Some? then s.file.value.epoch + 1 else 1;
            && Enabled(cfg, u, ContestWrite(h, Landed))
            && var v := Apply(cfg, u, ContestWrite(h, Landed));
               && v.file == Some(Lease(h, clock + cfg.timing[h].ttl, next))
               && v.replicas[h].phase == Verifying(u.now)
  {
    QuietKeeps(cfg, Apply(cfg, s, ContestRead(h, clock, true)), q, h);
  }

  /** A claim still on file after the verify delay makes its writer the leader under the claimed epoch. */
  lemma {:induction false} ClaimIsConfirmed(cfg: Config, s: System, h: Holder, q: seq<Action>, clock: int)
    requires h in s.replicas && h in cfg.timing && s.replicas[h].phase.Verifying? && HeldBy(s, h)
    requires Legal(cfg, s, q) && Quiet(cfg, s, q, h)
    requires Final(cfg, s, q).now >= s.replicas[h].phase.wroteAt + VerifyDelay(cfg.timing[h].renew)
    requires clock < s.file.value.expiresAt
    ensures var u := Final(cfg, s, q);
            && Enabled(cfg, u, VerifyRead(h, clock, true))
            && var v := Apply(cfg, u, VerifyRead(h, clock, true));
               && v.replicas[h].isLeader && v.replicas[h].epoch == s.file.value.epoch
               && v.confirmed == u.confirmed + [Acquisition(h, s.file.value.epoch)]
               && Enabled(cfg, v, StartHold(h, clock))
  {
    QuietKeeps(cfg, s, q, h);
  }

  /** A leader that finds its lease can always renew it for one more ttl from its look, under the same epoch. */
  lemma {:induction false} RenewalIsWritten(cfg: Config, s: System, h: Holder, clock: int, q: seq<Action>)
    requires Enabled(cfg, s, HoldRead(h, clock, true)) && HeldBy(s, h)
    requires var t := Apply(cfg, s, HoldRead(h, clock, true)); Legal(cfg, t, q) && Quiet(cfg, t, q, h)
    ensures var u := Final(cfg, Apply(cfg, s, HoldRead(h, clock, true)), q);
            && Enabled(cfg, u, RenewWrite(h, Landed))
            && var v := Apply(cfg, u, RenewWrite(h, Landed));
               && v.file == Some(Lease(h, clock + cfg.timing[h].ttl, s.replicas[h].epoch))
               && Enabled(cfg, v, HoldRead(h, clock, true))
  {
    QuietKeeps(cfg, Apply(cfg, s, HoldRead(h, clock, true)), q, h);
  }

  /** A leader that finds no lease looks a second time, after the verify delay, and then renews. */
  lemma {:induction false} SecondLookComes(cfg: Config, s: System, h: Holder, clock: int, ok: bool, q: seq<Action>, again: int)
    requires Enabled(cfg, s, HoldRead(h, clock, ok)) && (!ok || s.file.None?)
    requires var t := Apply(cfg, s, HoldRead(h, clock, ok)); Legal(cfg, t, q) && Quiet(cfg, t, q, h)
    requires Final(cfg, Apply(cfg, s, HoldRead(h, clock, ok)), q).now >= s.now + VerifyDelay(cfg.timing[h].renew)
    ensures var u := Final(cfg, Apply(cfg, s, HoldRead(h, clock, ok)), q);
            && !Enabled(cfg, u, RenewWrite(h, Landed))
            && Enabled(cfg, u, Recheck(h, again, true))
            && (Enabled(cfg, Apply(cfg, u, Recheck(h, again, true)), RenewWrite(h, Landed)) <==> !Foreign(s, h))
  {
    QuietKeeps(cfg, Apply(cfg, s, HoldRead(h, clock, ok)), q, h);
  }

  // ----- a leader that renews in time keeps the file -----

  /** The clock of the last write of `h` that reached the file. */
  function Beat(s: System, h: Holder, a: Action, last: int): int {
    if a.RenewWrite? && a.who == h && !a.outcome.NotLanded? && h in s.replicas && s.replicas[h].phase.Renewing?
    then s.replicas[h].phase.clock else last
  }

  function LastBeat(cfg: Config, s: System, run: seq<Action>, h: Holder, last: int): int
    requires Legal(cfg, s, run)
    decreases |run|
  {
    if run == [] then last else LastBeat(cfg, Apply(cfg, s, run[0]), run[1..], h, Beat(s, h, run[0], last))
  }

  /** No replica looks for an expired lease later, on its own clock, than a ttl after the last write of `h`. */
  predicate InTime(cfg: Config, s: System, run: seq<Action>, h: Holder, last: int)
    requires Legal(cfg, s, run) && h in cfg.timing
    decreases |run|
  {
    run == [] ||
    (&& (run[0].ContestRead? ==> run[0].clock < last + cfg.timing[h].ttl)
     && InTime(cfg, Apply(cfg, s, run[0]), run[1..], h, Beat(s, h, run[0], last)))
  }

  predicate Late(cfg: Config, s: System, readAt: int) {
    s.now - readAt >= cfg.gap
  }

  /** The lease of `h`, last written at `last`, is on file, and no other write can still land in time. */
  predicate Secure(cfg: Config, s: System, h: Holder, epoch: int, last: int) {
    && h in cfg.timing
    && s.file == Some(Lease(h, last + cfg.timing[h].ttl, epoch))
    && forall k :: k in s.replicas ==> Harmless(cfg, s, h, epoch, k, s.replicas[k])
  }

  predicate Harmless(cfg: Config, s: System, h: Holder, epoch: int, k: Holder, r: Replica) {
    && (r.phase.Contesting? ==> Late(cfg, s, r.phase.readAt))
    && (r.phase.Renewing? ==> Late(cfg, s, r.phase.readAt) || k == h)
    && (k == h && Leading(r) ==> r.epoch == epoch)
  }

  lemma {:induction false} StaysSecure(cfg: Config, s: System, a: Action, h: Holder, epoch: int, last: int)
    requires Secure(cfg, s, h, epoch, last) && Enabled(cfg, s, a) && Disciplined(cfg, s, a)
    requires a.ContestRead? ==> a.clock < last + cfg.timing[h].ttl
    ensures Secure(cfg, Apply(cfg, s, a), h, epoch, Beat(s, h, a, last))
  {
    var t := Apply(cfg, s, a);
    if !a.Tick? {
      assert Harmless(cfg, s, h, epoch, a.who, s.replicas[a.who]);
    }
    forall k | k in t.replicas
      ensures Harmless(cfg, t, h, epoch, k, t.replicas[k])
    {
      assert Harmless(cfg, s, h, epoch, k, s.replicas[k]);
    }
  }

  lemma {:induction false} RunStaysSecure(cfg: Config, s: System, run: seq<Action>, h: Holder, epoch: int, last: int)
    requires Secure(cfg, s, h, epoch, last) && Legal(cfg, s, run) && AllDisciplined(cfg, s, run) && InTime(cfg, s, run, h, last)
    ensures Secure(cfg, Final(cfg, s, run), h, epoch, LastBeat(cfg, s, run, h, last))
    decreases |run|
  {
    if run != [] {
      StaysSecure(cfg, s, run[0], h, epoch, last);
      RunStaysSecure(cfg, Apply(cfg, s, run[0]), run[1..], h, epoch, Beat(s, h, run[0], last));
    }
  }

  /** Nobody contests who has read the lease now on file. */
  predicate Uncontested(s: System) {
    forall k :: k in s.replicas && s.replicas[k].phase.Contesting? ==> s.replicas[k].phase.seen < s.version
  }

  lemma {:induction false} ConfirmationIsSecure(cfg: Config, s: System, h: Holder, clock: int)
    requires Inv(cfg, s) && Enabled(cfg, s, VerifyRead(h, clock, true)) && BeginsTenure(s, h, VerifyRead(h, clock, true))
    requires Uncontested(s)
    ensures Secure(cfg, Apply(cfg, s, VerifyRead(h, clock, true)), h, s.file.value.epoch, s.file.value.expiresAt - cfg.timing[h].ttl)
  {
    var t := Apply(cfg, s, VerifyRead(h, clock, true));
    assert ReplicaInv(cfg, s, h, s.replicas[h]);
    forall k | k in t.replicas
      ensures Harmless(cfg, t, h, s.file.value.epoch, k, t.replicas[k])
    {
      assert ReplicaInv(cfg, s, k, s.replicas[k]);
    }
  }

  /**
   From its confirmation on, a leader keeps the lease file, under the epoch confirmed and with an expiry one ttl after its
   last write, as long as no replica looks at the file later than that expiry on its own clock.
   */
  lemma {:induction false} PromptLeaderKeepsFile(cfg: Config, start: System, before: seq<Action>, h: Holder, clock: int, after: seq<Action>)
    requires cfg.Valid() && Init(cfg, start) && Legal(cfg, start, before) && AllDisciplined(cfg, start, before)
    requires var s := Final(cfg, start, before);
             && Enabled(cfg, s, VerifyRead(h, clock, true)) && BeginsTenure(s, h, VerifyRead(h, clock, true)) && Uncontested(s)
             && var t := Apply(cfg, s, VerifyRead(h, clock, true));
                && Legal(cfg, t, after) && AllDisciplined(cfg, t, after)
                && InTime(cfg, t, after, h, s.file.value.expiresAt - cfg.timing[h].ttl)
    ensures var s := Final(cfg, start, before);
            var t := Apply(cfg, s, VerifyRead(h, clock, true));
            var last := LastBeat(cfg, t, after, h, s.file.value.expiresAt - cfg.timing[h].ttl);
            Final(cfg, t, after).file == Some(Lease(h, last + cfg.timing[h].ttl, s.file.value.epoch))
  {
    InitInv(cfg, start);
    RunKeepsInv(cfg, start, before);
    var s := Final(cfg, start, before);
    ConfirmationIsSecure(cfg, s, h, clock);
    RunStaysSecure(cfg, Apply(cfg, s, VerifyRead(h, clock, true)), after, h, s.file.value.epoch,
                   s.file.value.expiresAt - cfg.timing[h].ttl);
  }
}
