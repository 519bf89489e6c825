/**
 Why the file-lease theorem has hypotheses: runs of the same protocol in which a single breach of one of
 them lets two acquisitions confirm the same epoch.
 */
module FileLeaseLimits {
  import opened Options
  import opened FileLease

  function Breaches(cfg: Config, s: System, run: seq<Action>): nat
    requires Legal(cfg, s, run)
    decreases |run|
  {
    if run == [] then 0
    else
      (if Disciplined(cfg, s, run[0]) then 0 else 1) + Breaches(cfg, Apply(cfg, s, run[0]), run[1..])
  }

  lemma {:induction false} Join(cfg: Config, s: System, first: seq<Action>, second: seq<Action>)
    requires Legal(cfg, s, first) && Legal(cfg, Final(cfg, s, first), second)
    ensures Legal(cfg, s, first + second)
    ensures Final(cfg, s, first + second) == Final(cfg, Final(cfg, s, first), second)
    ensures Breaches(cfg, s, first + second) == Breaches(cfg, s, first) + Breaches(cfg, Final(cfg, s, first), second)
    decreases |first|
  {
    if first == [] {
      assert first + second == second;
    } else {
      Join(cfg, Apply(cfg, s, first[0]), first[1..], second);
      assert (first + second)[1..] == first[1..] + second;
    }
  }

  lemma {:induction false} Single(cfg: Config, s: System, a: Action)
    requires Enabled(cfg, s, a)
    ensures Legal(cfg, s, [a]) && Final(cfg, s, [a]) == Apply(cfg, s, a)
    ensures Breaches(cfg, s, [a]) == if Disciplined(cfg, s, a) then 0 else 1
  {
    assert [a][1..] == [];
    assert Legal(cfg, Apply(cfg, s, a), []);
  }

  /** Two replicas with a verify delay of 100, and no lease yet. */
  function Pair(a: Holder, b: Holder): Config {
    Config(100, map[a := Timing(1000, 1000), b := Timing(1000, 1000)])
  }

  function Empty(a: Holder, b: Holder): System {
    System(0, None, 0, 0, map[a := FRESH, b := FRESH], [])
  }

  /** A replica writes the claim it has read for, waits out the verify delay and confirms. */
  function Claim(h: Holder, clock: int): seq<Action> {
    [ContestWrite(h, Landed)] + ([Tick(100)] + [VerifyRead(h, clock, true)])
  }

  function Claimed(s: System, h: Holder): System
    requires h in s.replicas && s.replicas[h].phase.Contesting?
  {
    var p := s.replicas[h].phase;
    System(s.now + 100, Some(Lease(h, p.clock + 1000, p.newEpoch)), s.version + 1, s.now,
           s.replicas[h := s.replicas[h].(phase := Acquired, isLeader := true, epoch := p.newEpoch)],
           s.confirmed + [Acquisition(h, p.newEpoch)])
  }

  lemma {:induction false} ClaimRuns(cfg: Config, s: System, h: Holder)
    requires h in s.replicas && h in cfg.timing && cfg.timing[h] == Timing(1000, 1000) && cfg.gap == 100
    requires s.replicas[h].phase.Contesting?
    ensures var run := Claim(h, s.replicas[h].phase.clock);
            && Legal(cfg, s, run) && Final(cfg, s, run) == Claimed(s, h)
            && Breaches(cfg, s, run) == if s.now - s.replicas[h].phase.readAt < 100 then 0 else 1
  {
    var clock := s.replicas[h].phase.clock;
    var s1 := Apply(cfg, s, ContestWrite(h, Landed));
    var s2 := s1.(now := s.now + 100);
    Single(cfg, s2, VerifyRead(h, clock, true));
    Single(cfg, s1, Tick(100));
    Join(cfg, s1, [Tick(100)], [VerifyRead(h, clock, true)]);
    Single(cfg, s, ContestWrite(h, Landed));
    Join(cfg, s, [ContestWrite(h, Landed)], [Tick(100)] + [VerifyRead(h, clock, true)]);
    assert Apply(cfg, s2, VerifyRead(h, clock, true)) == Claimed(s, h);
  }

  predicate RepeatsAnEpoch(log: seq<Acquisition>) {
    exists i, j :: 0 <= i < j < |log| && log[i].epoch == log[j].epoch
  }

  lemma {:induction false} RepeatWitness(log: seq<Acquisition>, i: nat, j: nat)
    requires i < j < |log| && log[i].epoch == log[j].epoch
    ensures RepeatsAnEpoch(log)
  {
  }

  function LateClaim(a: Holder, b: Holder): seq<Action> {
    [ContestRead(b, 0, true)] + ([ContestRead(a, 0, true)] + (Claim(a, 0) + Claim(b, 0)))
  }

  /** A claim written exactly one verify delay after its read confirms a used epoch: the bound on the gap is tight. */
  lemma {:induction false} LateClaimRepeatsEpoch(a: Holder, b: Holder)
    requires a != b
    ensures Pair(a, b).Valid() && Init(Pair(a, b), Empty(a, b)) && Legal(Pair(a, b), Empty(a, b), LateClaim(a, b))
    ensures Breaches(Pair(a, b), Empty(a, b), LateClaim(a, b)) == 1
    ensures RepeatsAnEpoch(Final(Pair(a, b), Empty(a, b), LateClaim(a, b)).confirmed)
  {
    var cfg := Pair(a, b);
    var s1 := Apply(cfg, Empty(a, b), ContestRead(b, 0, true));
    var s2 := Apply(cfg, s1, ContestRead(a, 0, true));
    ClaimRuns(cfg, s2, a);
    var s3 := Claimed(s2, a);
    ClaimRuns(cfg, s3, b);
    Join(cfg, s2, Claim(a, 0), Claim(b, 0));
    Single(cfg, s1, ContestRead(a, 0, true));
    Join(cfg, s1, [ContestRead(a, 0, true)], Claim(a, 0) + Claim(b, 0));
    Single(cfg, Empty(a, b), ContestRead(b, 0, true));
    Join(cfg, Empty(a, b), [ContestRead(b, 0, true)], [ContestRead(a, 0, true)] + (Claim(a, 0) + Claim(b, 0)));
    RepeatWitness(Claimed(s3, b).confirmed, 0, 1);
  }

  function Deletion(a: Holder, b: Holder): seq<Action> {
    [ContestRead(a, 0, true)] + (Claim(a, 0) + ([DeleteFile] + ([ContestRead(b, 0, true)] + Claim(b, 0))))
  }

  /** A deleted lease restarts the epochs at 1. */
  lemma {:induction false} DeletionRepeatsEpoch(a: Holder, b: Holder)
    requires a != b
    ensures Pair(a, b).Valid() && Init(Pair(a, b), Empty(a, b)) && Legal(Pair(a, b), Empty(a, b), Deletion(a, b))
    ensures Breaches(Pair(a, b), Empty(a, b), Deletion(a, b)) == 1
    ensures RepeatsAnEpoch(Final(Pair(a, b), Empty(a, b), Deletion(a, b)).confirmed)
  {
    var cfg := Pair(a, b);
    var s1 := Apply(cfg, Empty(a, b), ContestRead(a, 0, true));
    ClaimRuns(cfg, s1, a);
    var s2 := Claimed(s1, a);
    var s3 := Apply(cfg, s2, DeleteFile);
    var s4 := Apply(cfg, s3, ContestRead(b, 0, true));
    ClaimRuns(cfg, s4, b);
    Single(cfg, s3, ContestRead(b, 0, true));
    Join(cfg, s3, [ContestRead(b, 0, true)], Claim(b, 0));
    Single(cfg, s2, DeleteFile);
    Join(cfg, s2, [DeleteFile], [ContestRead(b, 0, true)] + Claim(b, 0));
    Join(cfg, s1, Claim(a, 0), [DeleteFile] + ([ContestRead(b, 0, true)] + Claim(b, 0)));
    Single(cfg, Empty(a, b), ContestRead(a, 0, true));
    Join(cfg, Empty(a, b), [ContestRead(a, 0, true)],
         Claim(a, 0) + ([DeleteFile] + ([ContestRead(b, 0, true)] + Claim(b, 0))));
    RepeatWitness(Claimed(s4, b).confirmed, 0, 1);
  }

  // Leader a fails to read, standby b takes over, a fails to read again and rewrites the lease blindly.
  function Outage(a: Holder, b: Holder): seq<Action> {
    [StartHold(a, 0)] + ([HoldRead(a, 0, false)] + [ContestRead(b, 5000, true)])
  }

  function Rewrite(a: Holder, b: Holder): seq<Action> {
    [Recheck(a, 0, false)] + ([RenewWrite(a, Landed)] + ([Halt(b)] + [ContestRead(b, 9000, true)]))
  }

  lemma {:induction false} OutageRuns(s: System, a: Holder, b: Holder)
    requires a != b
    requires a in s.replicas && b in s.replicas
    requires s.replicas[a].phase.Acquired? && s.replicas[b].phase.Standby?
    requires s.file.Some? && s.file.value.Expired(5000)
    ensures Legal(Pair(a, b), s, Outage(a, b)) && Breaches(Pair(a, b), s, Outage(a, b)) == 0
    ensures Final(Pair(a, b), s, Outage(a, b))
            == s.(replicas := s.replicas[a := s.replicas[a].(phase := Rechecking(s.now), lastOk := 0)]
                                        [b := s.replicas[b].(phase := Contesting(5000, s.file.value.epoch + 1, s.now, s.version))])
  {
    var cfg := Pair(a, b);
    var s1 := Apply(cfg, s, StartHold(a, 0));
    var s2 := Apply(cfg, s1, HoldRead(a, 0, false));
    Single(cfg, s2, ContestRead(b, 5000, true));
    Single(cfg, s1, HoldRead(a, 0, false));
    Join(cfg, s1, [HoldRead(a, 0, false)], [ContestRead(b, 5000, true)]);
    Single(cfg, s, StartHold(a, 0));
    Join(cfg, s, [StartHold(a, 0)], [HoldRead(a, 0, false)] + [ContestRead(b, 5000, true)]);
    assert s1.replicas[a := s2.replicas[a]] == s2.replicas;
    assert Apply(cfg, s2, ContestRead(b, 5000, true)).replicas
        == s.replicas[a := s2.replicas[a]][b := s.replicas[b].(phase := Contesting(5000, s.file.value.epoch + 1, s.now, s.version))];
  }

  lemma {:induction false} RewriteRuns(s: System, a: Holder, b: Holder)
    requires a != b
    requires a in s.replicas && b in s.replicas
    requires s.replicas[a].phase.Rechecking? && s.replicas[a].phase.failedAt + 100 <= s.now
    ensures Legal(Pair(a, b), s, Rewrite(a, b)) && Breaches(Pair(a, b), s, Rewrite(a, b)) == 1
    ensures var t := Final(Pair(a, b), s, Rewrite(a, b));
            && t.now == s.now && t.confirmed == s.confirmed && b in t.replicas
            && t.replicas[b] == FRESH.(phase := Contesting(9000, s.replicas[a].epoch + 1, s.now, s.version + 1))
  {
    var cfg := Pair(a, b);
    var s1 := Apply(cfg, s, Recheck(a, 0, false));
    var s2 := Apply(cfg, s1, RenewWrite(a, Landed));
    var s3 := Apply(cfg, s2, Halt(b));
    Single(cfg, s3, ContestRead(b, 9000, true));
    Single(cfg, s2, Halt(b));
    Join(cfg, s2, [Halt(b)], [ContestRead(b, 9000, true)]);
    Single(cfg, s1, RenewWrite(a, Landed));
    Join(cfg, s1, [RenewWrite(a, Landed)], [Halt(b)] + [ContestRead(b, 9000, true)]);
    Single(cfg, s, Recheck(a, 0, false));
    Join(cfg, s, [Recheck(a, 0, false)], [RenewWrite(a, Landed)] + ([Halt(b)] + [ContestRead(b, 9000, true)]));
  }

  function Again(s: System, a: Holder, b: Holder): Acquisition
    requires a in s.replicas
  {
    Acquisition(b, s.replicas[a].epoch + 1)
  }

  lemma {:induction false} TakeoverRuns(s: System, a: Holder, b: Holder)
    requires a != b
    requires a in s.replicas && b in s.replicas
    requires s.replicas[a].phase.Acquired? && s.replicas[b].phase.Standby?
    requires s.file.Some? && s.file.value.Expired(5000) && s.file.value.epoch == s.replicas[a].epoch
    ensures Legal(Pair(a, b), s, Outage(a, b) + Claim(b, 5000)) && Breaches(Pair(a, b), s, Outage(a, b) + Claim(b, 5000)) == 0
    ensures var t := Final(Pair(a, b), s, Outage(a, b) + Claim(b, 5000));
            && a in t.replicas && b in t.replicas && t.confirmed == s.confirmed + [Again(s, a, b)]
            && t.replicas[a].phase == Rechecking(t.now - 100) && t.replicas[a].epoch == s.replicas[a].epoch
  {
    var cfg := Pair(a, b);
    OutageRuns(s, a, b);
    ClaimRuns(cfg, Final(cfg, s, Outage(a, b)), b);
    Join(cfg, s, Outage(a, b), Claim(b, 5000));
  }

  lemma {:induction false} ReclaimRuns(s: System, a: Holder, b: Holder)
    requires a != b
    requires a in s.replicas && b in s.replicas && s.replicas[a].phase == Rechecking(s.now - 100)
    ensures Legal(Pair(a, b), s, Rewrite(a, b) + Claim(b, 9000)) && Breaches(Pair(a, b), s, Rewrite(a, b) + Claim(b, 9000)) == 1
    ensures Final(Pair(a, b), s, Rewrite(a, b) + Claim(b, 9000)).confirmed == s.confirmed + [Again(s, a, b)]
  {
    var cfg := Pair(a, b);
    RewriteRuns(s, a, b);
    ClaimRuns(cfg, Final(cfg, s, Rewrite(a, b)), b);
    Join(cfg, s, Rewrite(a, b), Claim(b, 9000));
  }

  function BlindRewrite(a: Holder, b: Holder): seq<Action> {
    (Outage(a, b) + Claim(b, 5000)) + (Rewrite(a, b) + Claim(b, 9000))
  }

  lemma {:induction false} BlindRewriteRuns(s: System, a: Holder, b: Holder)
    requires a != b
    requires a in s.replicas && b in s.replicas
    requires s.replicas[a].phase.Acquired? && s.replicas[b].phase.Standby?
    requires s.file.Some? && s.file.value.Expired(5000) && s.file.value.epoch == s.replicas[a].epoch
    ensures Legal(Pair(a, b), s, BlindRewrite(a, b)) && Breaches(Pair(a, b), s, BlindRewrite(a, b)) == 1
    ensures Final(Pair(a, b), s, BlindRewrite(a, b)).confirmed == s.confirmed + [Again(s, a, b)] + [Again(s, a, b)]
  {
    var cfg := Pair(a, b);
    TakeoverRuns(s, a, b);
    ReclaimRuns(Final(cfg, s, Outage(a, b) + Claim(b, 5000)), a, b);
    Join(cfg, s, Outage(a, b) + Claim(b, 5000), Rewrite(a, b) + Claim(b, 9000));
  }

  function BlindRenewal(a: Holder, b: Holder): seq<Action> {
    [ContestRead(a, 0, true)] + (Claim(a, 0) + BlindRewrite(a, b))
  }

  /** Two failed reads in a row while renewing bring an old epoch back, and the next claim repeats a used one. */
  lemma {:induction false} BlindRenewalRepeatsEpoch(a: Holder, b: Holder)
    requires a != b
    ensures Pair(a, b).Valid() && Init(Pair(a, b), Empty(a, b)) && Legal(Pair(a, b), Empty(a, b), BlindRenewal(a, b))
    ensures Breaches(Pair(a, b), Empty(a, b), BlindRenewal(a, b)) == 1
    ensures RepeatsAnEpoch(Final(Pair(a, b), Empty(a, b), BlindRenewal(a, b)).confirmed)
  {
    var cfg := Pair(a, b);
    var s1 := Apply(cfg, Empty(a, b), ContestRead(a, 0, true));
    ClaimRuns(cfg, s1, a);
    var s2 := Claimed(s1, a);
    BlindRewriteRuns(s2, a, b);
    Join(cfg, s1, Claim(a, 0), BlindRewrite(a, b));
    Single(cfg, Empty(a, b), ContestRead(a, 0, true));
    Join(cfg, Empty(a, b), [ContestRead(a, 0, true)], Claim(a, 0) + BlindRewrite(a, b));
    RepeatWitness(Final(cfg, s2, BlindRewrite(a, b)).confirmed, 1, 2);
  }
}
