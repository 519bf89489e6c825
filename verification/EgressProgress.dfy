/**
 That the egress governor lets through what it may (src/sf2loki/egress.py): a lane that sleeps for the wait it was given
 passes, and no sooner; and a batch is admitted exactly while the day's recorded bytes leave room for it.
 */
module EgressProgress {
  import opened Options
  import opened Egress

  // ----- token buckets -----

  lemma {:induction false} AccrualGrows(rate: real, a: real, b: real)
    requires rate > 0.0 && a < b
    ensures Accrual(rate, a) < Accrual(rate, b)
  {
    AccrualAdds(rate, 0.0, a, b);
    assert (b - a) * rate > 0.0;
  }

  lemma {:induction false} Divided(x: real, rate: real, elapsed: real)
    requires rate > 0.0
    ensures elapsed >= x / rate <==> Accrual(rate, elapsed) >= x
  {
    var due := x / rate;
    assert Accrual(rate, due) == x;
    if elapsed < due {
      AccrualGrows(rate, elapsed, due);
    } else if elapsed > due {
      AccrualGrows(rate, due, elapsed);
    }
  }

  /** A bucket left alone affords the request at a later moment exactly if the wait it returned has passed. */
  lemma {:induction false} WaitIsExact(b: Bucket, amount: real, now: real, later: real)
    requires b.Valid() && b.last <= now <= later
    ensures Wait(Refilled(b, now), amount, later) <= 0.0 <==> later >= now + Wait(b, amount, now)
  {
    RefillIsBounded(b, now);
    var q, need := Refilled(b, now), Min(amount, b.rate);
    RefillIsBounded(q, later);
    if q.tokens < need {
      Divided(need - q.tokens, b.rate, later - now);
      Positive(need - q.tokens, b.rate);
    }
    var r := Refilled(q, later);
    if r.tokens < need {
      Positive(need - r.tokens, b.rate);
    }
  }

  /** The clock readings of a look follow those of the one before. */
  predicate Follows(l: Look, m: Look) {
    l.lineCheck <= m.lineCheck && l.byteCheck <= m.byteCheck
  }

  /** The buckets have not been looked at later than the look itself. */
  predicate UpToDate(g: Gate, l: Look) {
    (g.lines.Some? ==> g.lines.value.last <= l.lineCheck) && (g.bytes.Some? ==> g.bytes.value.last <= l.byteCheck)
  }

  /** A lane turned back that sleeps for the wait passes with the same batch, if no other lane takes tokens meanwhile. */
  lemma {:induction false} SleeperPasses(g: Gate, l: Look, m: Look)
    requires g.Valid() && UpToDate(g, l) && Follows(l, m) && m.lines == l.lines && m.bytes == l.bytes
    requires m.lineCheck >= l.lineCheck + GateWait(g, l) && m.byteCheck >= l.byteCheck + GateWait(g, l)
    ensures Agrees(GateStep(g, l.(passed := false)), m)
  {
    if g.lines.Some? {
      WaitIsExact(g.lines.value, l.lines, l.lineCheck, m.lineCheck);
    }
    if g.bytes.Some? {
      WaitIsExact(g.bytes.value, l.bytes, l.byteCheck, m.byteCheck);
    }
  }

  /** And no sooner: with one clock reading per look, a look before the wait is over is turned back again. */
  lemma {:induction false} EarlierIsTurnedBack(g: Gate, l: Look, m: Look)
    requires g.Valid() && UpToDate(g, l) && Follows(l, m) && m.lines == l.lines && m.bytes == l.bytes
    requires l.lineCheck == l.byteCheck && m.lineCheck == m.byteCheck && m.lineCheck < l.lineCheck + GateWait(g, l)
    ensures !Agrees(GateStep(g, l.(passed := false)), m)
  {
    if g.lines.Some? {
      WaitIsExact(g.lines.value, l.lines, l.lineCheck, m.lineCheck);
    }
    if g.bytes.Some? {
      WaitIsExact(g.bytes.value, l.bytes, l.byteCheck, m.byteCheck);
    }
  }

  /** The refill until `now` stays within the capacity. */
  predicate HasRoom(b: Bucket, now: real) {
    b.last <= now && b.tokens + Accrual(b.rate, now - b.last) <= b.rate
  }

  /** The bucket never ran full while the first `n` turns were taken. */
  predicate NeverFull(b: Bucket, turns: seq<Turn>, n: nat)
    requires n <= |turns|
  {
    n == 0 ||
    (&& NeverFull(b, turns, n - 1)
     && HasRoom(After(b, turns, n - 1), turns[n - 1].checked)
     && (turns[n - 1].passed ==> HasRoom(Refilled(After(b, turns, n - 1), turns[n - 1].checked), turns[n - 1].at)))
  }

  lemma {:induction false} RefillAdds(b: Bucket, now: real)
    requires HasRoom(b, now)
    ensures Refilled(b, now).tokens == b.tokens + Accrual(b.rate, now - b.last)
    ensures Refilled(b, now).last == now && Refilled(b, now).rate == b.rate
  {
  }

  /** As long as it is never full a bucket loses nothing: what passed and what it holds are exactly what it had and earned. */
  lemma {:induction false} NothingIsWasted(b: Bucket, turns: seq<Turn>, n: nat)
    requires n <= |turns| && NeverFull(b, turns, n)
    ensures var a := After(b, turns, n);
            a.rate == b.rate && Passed(turns, n) + a.tokens == b.tokens + Accrual(b.rate, a.last - b.last)
  {
    if n > 0 {
      NothingIsWasted(b, turns, n - 1);
      var p, t := After(b, turns, n - 1), turns[n - 1];
      RefillAdds(p, t.checked);
      AccrualAdds(b.rate, b.last, p.last, t.checked);
      if t.passed {
        RefillAdds(Refilled(p, t.checked), t.at);
        AccrualAdds(b.rate, b.last, t.checked, t.at);
      }
    }
  }

  // ----- the daily budget -----

  /** The bytes recorded so far on the day last seen; the count starts over whenever another day shows. */
  datatype Tally = Tally(day: int, bytes: nat)

  function OnDay(m: Tally, today: int): Tally {
    if m.day == today then m else Tally(today, 0)
  }

  function Tallied(g: Budget, m: Tally, a: BudgetAction): Tally
    requires BudgetEnabled(g, a)
  {
    match a
    case Admit(_, today, _) => OnDay(m, today)
    case Record(lane, today) => Tally(today, OnDay(m, today).bytes + g.lanes[lane].bytes)
    case Restart(today) => Tally(today, if g.saved.Some? && g.saved.value.day == today then g.saved.value.total else 0)
    case _ => m
  }

  function TalliedAll(g: Budget, m: Tally, run: seq<BudgetAction>, most: nat): Tally
    requires BudgetLegal(g, run, most)
    decreases |run|
  {
    if run == [] then m else TalliedAll(BudgetApply(g, run[0]), Tallied(g, m, run[0]), run[1..], most)
  }

  lemma {:induction false} RunKeepsTally(g: Budget, run: seq<BudgetAction>, most: nat)
    requires BudgetLegal(g, run, most)
    ensures var h := BudgetFinal(g, run, most);
            h.limit == g.limit && Tally(h.day, h.used) == TalliedAll(g, Tally(g.day, g.used), run, most)
    decreases |run|
  {
    if run != [] {
      RunKeepsTally(BudgetApply(g, run[0]), run[1..], most);
    }
  }

  /** In every run a batch is admitted exactly if it fits into what the bytes recorded today leave of the budget. */
  lemma {:induction false} AdmitsExactly(g: Budget, run: seq<BudgetAction>, most: nat, lane: nat, today: int, bytes: nat)
    requires BudgetLegal(g, run, most) && g.limit > 0
    requires BudgetEnabled(BudgetFinal(g, run, most), Admit(lane, today, bytes))
    ensures var h := BudgetApply(BudgetFinal(g, run, most), Admit(lane, today, bytes));
            var spent := OnDay(TalliedAll(g, Tally(g.day, g.used), run, most), today).bytes;
            && lane < |h.lanes|
            && h.lanes[lane] == (if spent + bytes <= g.limit then Admitted(bytes) else Free)
  {
    RunKeepsTally(g, run, most);
  }

  /** Once the last counter recorded has been persisted, a restart on the same day loses nothing of it. */
  lemma {:induction false} RestartRecovers(g: Budget, lane: nat, today: int)
    requires BudgetEnabled(g, Record(lane, today))
    ensures var recorded := BudgetApply(g, Record(lane, today));
            && BudgetEnabled(recorded, Persist(lane))
            && var h := BudgetApply(BudgetApply(recorded, Persist(lane)), Restart(today));
               h.day == today && h.used == recorded.used && h.limit == g.limit
  {
  }

  /** A lane whose batch was recorded and persisted, or given up, can ask for admission again. */
  lemma {:induction false} LaneIsFreed(g: Budget, lane: nat, today: int, bytes: nat)
    requires BudgetEnabled(g, Record(lane, today))
    ensures BudgetEnabled(BudgetApply(g, Forget(lane)), Admit(lane, today, bytes)) && BudgetApply(g, Forget(lane)).used == g.used
    ensures var recorded := BudgetApply(g, Record(lane, today));
            BudgetEnabled(recorded, Persist(lane)) && BudgetEnabled(BudgetApply(recorded, Persist(lane)), Admit(lane, today, bytes))
  {
  }
}
