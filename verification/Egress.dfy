/**
 The egress governor (src/sf2loki/egress.py): token buckets on lines and bytes, and the daily byte budget.
 Rates, balances and the monotonic clock are reals; UTC days are numbered.
 */
module Egress {
  import opened Options

  function Min(x: real, y: real): real {
    if x < y then x else y
  }

  function Max(x: real, y: real): real {
    if x < y then y else x
  }

  // ----- token bucket -----

  /** What a bucket gains over a stretch of time. */
  function Accrual(rate: real, length: real): real {
    length * rate
  }

  /** The capacity equals the rate: one second of headroom. */
  datatype Bucket = Bucket(rate: real, tokens: real, last: real) {
    predicate Valid() {
      rate > 0.0 && tokens <= rate
    }
  }

  function Refilled(b: Bucket, now: real): Bucket {
    if now > b.last then b.(tokens := Min(b.rate, b.tokens + Accrual(b.rate, now - b.last)), last := now) else b
  }

  /** How long to sleep for `amount`; a request over the capacity only waits for a full bucket. */
  function Wait(b: Bucket, amount: real, now: real): real
    requires b.rate > 0.0
  {
    var need := Min(amount, b.rate);
    var tokens := Refilled(b, now).tokens;
    if tokens >= need then 0.0 else (need - tokens) / b.rate
  }

  function Consumed(b: Bucket, amount: real, now: real): Bucket {
    var r := Refilled(b, now);
    r.(tokens := r.tokens - amount)
  }

  /** One turn of a throttle loop: it looked at the bucket at `checked`, and if `passed` took `amount` at `at`. */
  datatype Turn = Turn(checked: real, at: real, amount: real, passed: bool)

  function Step(b: Bucket, t: Turn): Bucket {
    if t.passed then Consumed(Refilled(b, t.checked), t.amount, t.at) else Refilled(b, t.checked)
  }

  function After(b: Bucket, turns: seq<Turn>, n: nat): Bucket
    requires n <= |turns|
  {
    if n == 0 then b else Step(After(b, turns, n - 1), turns[n - 1])
  }

  /** A turn passes only when no wait is due; amounts are at most `most` and the clock never goes back. */
  predicate Lawful(b: Bucket, turns: seq<Turn>, most: real, n: nat)
    requires n <= |turns|
  {
    n == 0 ||
    (&& Lawful(b, turns, most, n - 1)
     && turns[n - 1].checked <= turns[n - 1].at && 0.0 <= turns[n - 1].amount <= most
     && (n > 1 ==> turns[n - 2].at <= turns[n - 1].checked)
     && (turns[n - 1].passed ==> Affords(After(b, turns, n - 1), turns[n - 1])))
  }

  predicate Affords(b: Bucket, t: Turn) {
    b.rate > 0.0 && Wait(b, t.amount, t.checked) <= 0.0
  }

  /** The amount let through by the first `n` turns. */
  function Passed(turns: seq<Turn>, n: nat): real
    requires n <= |turns|
  {
    if n == 0 then 0.0 else Passed(turns, n - 1) + if turns[n - 1].passed then turns[n - 1].amount else 0.0
  }

  lemma {:induction false} AccrualIsNonNegative(rate: real, length: real)
    requires rate >= 0.0 && length >= 0.0
    ensures Accrual(rate, length) >= 0.0
  {
  }

  lemma {:induction false} AccrualAdds(rate: real, a: real, b: real, c: real)
    ensures Accrual(rate, b - a) + Accrual(rate, c - b) == Accrual(rate, c - a)
  {
  }

  /** Elapsed time is paid for at the rate. */
  lemma {:induction false} RefillIsBounded(b: Bucket, now: real)
    requires b.Valid() && now >= b.last
    ensures Refilled(b, now).Valid() && Refilled(b, now).rate == b.rate && Refilled(b, now).last == now
    ensures b.tokens <= Refilled(b, now).tokens <= b.tokens + Accrual(b.rate, now - b.last)
  {
    AccrualIsNonNegative(b.rate, now - b.last);
  }

  lemma {:induction false} AfterIsValid(b: Bucket, turns: seq<Turn>, most: real, n: nat)
    requires b.Valid() && n <= |turns| && Lawful(b, turns, most, n) && (turns != [] ==> b.last <= turns[0].checked)
    ensures var a := After(b, turns, n);
            && a.Valid() && a.rate == b.rate
            && (n == 0 ==> a.last == b.last)
            && (n > 0 ==> turns[0].checked <= a.last <= turns[n - 1].at)
  {
    if n > 0 {
      AfterIsValid(b, turns, most, n - 1);
      var p := After(b, turns, n - 1);
      var t := turns[n - 1];
      RefillIsBounded(p, t.checked);
      RefillIsBounded(Refilled(p, t.checked), t.at);
    }
  }

  /** What passed since `open` and what is left are within what was `held` at `open` plus the accrual since then. */
  predicate Conserved(b: Bucket, open: real, held: real, passed: real) {
    if b.last >= open then passed + b.tokens <= held + Accrual(b.rate, b.last - open)
    else passed <= 0.0 && Refilled(b, open).tokens <= held
  }

  /** Refilling in two steps earns no less than in one. */
  lemma {:induction false} RefillTwice(b: Bucket, open: real, now: real)
    requires b.Valid() && b.last < open <= now
    ensures Refilled(b, now).tokens <= Refilled(b, open).tokens + Accrual(b.rate, now - open)
  {
    AccrualAdds(b.rate, b.last, open, now);
    AccrualIsNonNegative(b.rate, now - open);
  }

  lemma {:induction false} OpeningConserves(b: Bucket, open: real)
    requires b.Valid() && b.last <= open
    ensures Conserved(b, open, Refilled(b, open).tokens, 0.0)
  {
    AccrualIsNonNegative(b.rate, open - b.last);
  }

  lemma {:induction false} RefillConserves(b: Bucket, now: real, open: real, held: real, passed: real)
    requires b.Valid() && now >= b.last && now >= open && Conserved(b, open, held, passed)
    ensures Conserved(Refilled(b, now), open, held, passed)
  {
    RefillIsBounded(b, now);
    if b.last >= open {
      AccrualAdds(b.rate, open, b.last, now);
    } else {
      RefillTwice(b, open, now);
    }
  }

  lemma {:induction false} StepConserves(b: Bucket, t: Turn, open: real, held: real, passed: real)
    requires b.Valid() && b.last <= t.checked <= t.at && open <= t.checked && Conserved(b, open, held, passed)
    ensures Conserved(Step(b, t), open, held, passed + if t.passed then t.amount else 0.0)
  {
    RefillIsBounded(b, t.checked);
    RefillConserves(b, t.checked, open, held, passed);
    var q := Refilled(b, t.checked);
    RefillIsBounded(q, t.at);
    RefillConserves(q, t.at, open, held, passed);
  }

  /** What a bucket lets through since `open`, and what it still holds, never exceed what it held then plus what it earned. */
  lemma {:induction false} Conservation(b: Bucket, turns: seq<Turn>, most: real, open: real, n: nat)
    requires b.Valid() && n <= |turns| && Lawful(b, turns, most, n)
    requires b.last <= open && (turns != [] ==> open <= turns[0].checked)
    ensures Conserved(After(b, turns, n), open, Refilled(b, open).tokens, Passed(turns, n))
  {
    if n == 0 {
      OpeningConserves(b, open);
    } else {
      Conservation(b, turns, most, open, n - 1);
      AfterIsValid(b, turns, most, n - 1);
      StepConserves(After(b, turns, n - 1), turns[n - 1], open, Refilled(b, open).tokens, Passed(turns, n - 1));
    }
  }

  /** After a turn that passed, the balance is down by no more than the excess of the batch over the capacity. */
  lemma {:induction false} PassingLeavesEnough(p: Bucket, t: Turn, most: real)
    requires p.Valid() && p.last <= t.checked <= t.at && t.passed && Affords(p, t) && t.amount <= most
    ensures Step(p, t).tokens >= p.rate - Max(p.rate, most)
  {
    var q := Refilled(p, t.checked);
    RefillIsBounded(p, t.checked);
    RefillIsBounded(q, t.at);
    var need := Min(t.amount, p.rate);
    if q.tokens < need {
      Positive(need - q.tokens, p.rate);
      assert false;
    }
  }

  lemma {:induction false} Positive(x: real, rate: real)
    requires x > 0.0 && rate > 0.0
    ensures x / rate > 0.0
  {
  }

  /** At most rate * length + max(capacity, largest batch). */
  predicate Bounded(rate: real, length: real, most: real, passed: real) {
    passed <= Accrual(rate, length) + Max(rate, most)
  }

  lemma {:induction false} PassingIsBounded(p: Bucket, t: Turn, most: real, open: real, held: real, passed: real)
    requires p.Valid() && p.last <= t.checked <= t.at && open <= t.checked && held <= p.rate
    requires t.passed && Affords(p, t) && t.amount <= most && Conserved(Step(p, t), open, held, passed)
    ensures Bounded(p.rate, t.at - open, most, passed)
  {
    PassingLeavesEnough(p, t, most);
    RefillIsBounded(p, t.checked);
    RefillIsBounded(Refilled(p, t.checked), t.at);
  }

  lemma {:induction false} LongerIsBounded(rate: real, open: real, before: real, now: real, most: real, passed: real)
    requires rate > 0.0 && before <= now && Bounded(rate, before - open, most, passed)
    ensures Bounded(rate, now - open, most, passed)
  {
    AccrualAdds(rate, open, before, now);
    AccrualIsNonNegative(rate, now - before);
  }

  /**
   Over any window, opened at `open` and ending with the last turn, a bucket lets through at most
   rate * length + max(capacity, largest batch), whoever the turns belong to.
   */
  lemma {:induction false} WindowIsBounded(b: Bucket, turns: seq<Turn>, most: real, open: real, n: nat)
    requires b.Valid() && 0 < n <= |turns| && Lawful(b, turns, most, n)
    requires b.last <= open <= turns[0].checked
    ensures Bounded(b.rate, turns[n - 1].at - open, most, Passed(turns, n))
  {
    var t := turns[n - 1];
    AfterIsValid(b, turns, most, n - 1);
    if t.passed {
      Conservation(b, turns, most, open, n);
      RefillIsBounded(b, open);
      PassingIsBounded(After(b, turns, n - 1), t, most, open, Refilled(b, open).tokens, Passed(turns, n));
    } else if n > 1 {
      WindowIsBounded(b, turns, most, open, n - 1);
      LongerIsBounded(b.rate, open, turns[n - 2].at, t.at, most, Passed(turns, n));
    } else {
      NothingIsBounded(b.rate, t.at - open, most);
    }
  }

  lemma {:induction false} TurnsAreBounded(b: Bucket, turns: seq<Turn>, most: real, open: real, end: real)
    requires b.Valid() && turns != [] && Lawful(b, turns, most, |turns|)
    requires b.last <= open <= turns[0].checked && turns[|turns| - 1].at == end
    ensures Bounded(b.rate, end - open, most, Passed(turns, |turns|))
  {
    WindowIsBounded(b, turns, most, open, |turns|);
  }

  lemma {:induction false} NothingIsBounded(rate: real, length: real, most: real)
    requires rate > 0.0 && length >= 0.0
    ensures Bounded(rate, length, most, 0.0)
  {
    AccrualIsNonNegative(rate, length);
  }

  // ----- both buckets, any number of lanes -----

  datatype Gate = Gate(lines: Option<Bucket>, bytes: Option<Bucket>) {
    predicate Valid() {
      (lines.Some? ==> lines.value.Valid()) && (bytes.Some? ==> bytes.value.Valid())
    }
  }

  /** One turn of some lane's throttle loop: the four clock readings it takes, what it asks for, and whether it passed. */
  datatype Look = Look(lineCheck: real, byteCheck: real, lineTake: real, byteTake: real, lines: real, bytes: real, passed: bool)

  /** No wait is due at either bucket. */
  predicate Agrees(g: Gate, l: Look) {
    && (g.lines.Some? ==> g.lines.value.rate > 0.0 && Wait(g.lines.value, l.lines, l.lineCheck) <= 0.0)
    && (g.bytes.Some? ==> g.bytes.value.rate > 0.0 && Wait(g.bytes.value, l.bytes, l.byteCheck) <= 0.0)
  }

  /** How long a lane must sleep before it looks again: the longer of the two waits, and nothing when it may pass. */
  function GateWait(g: Gate, l: Look): real
    requires (g.lines.Some? ==> g.lines.value.rate > 0.0) && (g.bytes.Some? ==> g.bytes.value.rate > 0.0)
  {
    var wait := if g.lines.Some? then Max(0.0, Wait(g.lines.value, l.lines, l.lineCheck)) else 0.0;
    if g.bytes.Some? then Max(wait, Wait(g.bytes.value, l.bytes, l.byteCheck)) else wait
  }

  function LineTurn(l: Look): Turn {
    Turn(l.lineCheck, l.lineTake, l.lines, l.passed)
  }

  function ByteTurn(l: Look): Turn {
    Turn(l.byteCheck, l.byteTake, l.bytes, l.passed)
  }

  function GateStep(g: Gate, l: Look): Gate {
    Gate(if g.lines.Some? then Some(Step(g.lines.value, LineTurn(l))) else None,
         if g.bytes.Some? then Some(Step(g.bytes.value, ByteTurn(l))) else None)
  }

  function GateAfter(g: Gate, looks: seq<Look>, n: nat): Gate
    requires n <= |looks|
  {
    if n == 0 then g else GateStep(GateAfter(g, looks, n - 1), looks[n - 1])
  }

  /** A look passes exactly when both buckets agree. */
  predicate Gated(g: Gate, looks: seq<Look>, n: nat)
    requires n <= |looks|
  {
    n == 0 || (Gated(g, looks, n - 1) && looks[n - 1].passed == Agrees(GateAfter(g, looks, n - 1), looks[n - 1]))
  }

  /** The turns each bucket sees. */
  function LineTurns(looks: seq<Look>): (turns: seq<Turn>)
    ensures |turns| == |looks| && forall i :: 0 <= i < |looks| ==> turns[i] == LineTurn(looks[i])
  {
    if looks == [] then [] else LineTurns(looks[..|looks| - 1]) + [LineTurn(looks[|looks| - 1])]
  }

  function ByteTurns(looks: seq<Look>): (turns: seq<Turn>)
    ensures |turns| == |looks| && forall i :: 0 <= i < |looks| ==> turns[i] == ByteTurn(looks[i])
  {
    if looks == [] then [] else ByteTurns(looks[..|looks| - 1]) + [ByteTurn(looks[|looks| - 1])]
  }

  predicate Timed(looks: seq<Look>, mostLines: real, mostBytes: real) {
    && (forall i :: 0 <= i < |looks| ==>
          && looks[i].lineCheck <= looks[i].byteCheck <= looks[i].lineTake <= looks[i].byteTake
          && 0.0 <= looks[i].lines <= mostLines && 0.0 <= looks[i].bytes <= mostBytes)
    && (forall i :: 0 < i < |looks| ==> looks[i - 1].byteTake <= looks[i].lineCheck)
  }

  /** Each bucket behind the gate sees an ordinary history of turns. */
  lemma {:induction false} GateProjects(g: Gate, looks: seq<Look>, n: nat)
    requires n <= |looks|
    ensures g.lines.Some? ==> GateAfter(g, looks, n).lines == Some(After(g.lines.value, LineTurns(looks), n))
    ensures g.bytes.Some? ==> GateAfter(g, looks, n).bytes == Some(After(g.bytes.value, ByteTurns(looks), n))
  {
    if n > 0 {
      GateProjects(g, looks, n - 1);
    }
  }

  lemma {:induction false} LinesAreLawful(g: Gate, looks: seq<Look>, mostLines: real, mostBytes: real, n: nat)
    requires Timed(looks, mostLines, mostBytes) && n <= |looks| && Gated(g, looks, n) && g.lines.Some?
    ensures Lawful(g.lines.value, LineTurns(looks), mostLines, n)
  {
    if n > 0 {
      LinesAreLawful(g, looks, mostLines, mostBytes, n - 1);
      GateProjects(g, looks, n - 1);
    }
  }

  lemma {:induction false} BytesAreLawful(g: Gate, looks: seq<Look>, mostLines: real, mostBytes: real, n: nat)
    requires Timed(looks, mostLines, mostBytes) && n <= |looks| && Gated(g, looks, n) && g.bytes.Some?
    ensures Lawful(g.bytes.value, ByteTurns(looks), mostBytes, n)
  {
    if n > 0 {
      BytesAreLawful(g, looks, mostLines, mostBytes, n - 1);
      GateProjects(g, looks, n - 1);
    }
  }

  /** Lanes sharing both buckets: the window bound holds for the lines ... */
  lemma {:induction false} GateLinesAreBounded(g: Gate, looks: seq<Look>, mostLines: real, mostBytes: real, open: real)
    requires g.Valid() && Timed(looks, mostLines, mostBytes) && looks != [] && Gated(g, looks, |looks|)
    requires g.lines.Some? && g.lines.value.last <= open <= looks[0].lineCheck
    ensures Bounded(g.lines.value.rate, looks[|looks| - 1].lineTake - open, mostLines, Passed(LineTurns(looks), |looks|))
  {
    LinesAreLawful(g, looks, mostLines, mostBytes, |looks|);
    TurnsAreBounded(g.lines.value, LineTurns(looks), mostLines, open, looks[|looks| - 1].lineTake);
  }

  /** ... and for the bytes. */
  lemma {:induction false} GateBytesAreBounded(g: Gate, looks: seq<Look>, mostLines: real, mostBytes: real, open: real)
    requires g.Valid() && Timed(looks, mostLines, mostBytes) && looks != [] && Gated(g, looks, |looks|)
    requires g.bytes.Some? && g.bytes.value.last <= open <= looks[0].byteCheck
    ensures Bounded(g.bytes.value.rate, looks[|looks| - 1].byteTake - open, mostBytes, Passed(ByteTurns(looks), |looks|))
  {
    BytesAreLawful(g, looks, mostLines, mostBytes, |looks|);
    TurnsAreBounded(g.bytes.value, ByteTurns(looks), mostBytes, open, looks[|looks| - 1].byteTake);
  }

  // ----- the daily byte budget in drop mode -----

  /** What a lane has under way: a batch admitted but not recorded, or a counter value on its way to the store. */
  datatype Slot = Free | Admitted(bytes: nat) | Persisting(day: int, total: nat)

  datatype Counter = Counter(day: int, total: nat)

  datatype Budget = Budget(limit: nat, day: int, used: nat, saved: Option<Counter>, lanes: seq<Slot>)

  /** `today` is what the UTC clock shows; it may jump. `Forget` is a push that failed for good or was abandoned. */
  datatype BudgetAction =
    | Admit(lane: nat, today: int, bytes: nat)
    | Record(lane: nat, today: int)
    | Persist(lane: nat)
    | Forget(lane: nat)
    | Restart(today: int)

  predicate BudgetEnabled(g: Budget, a: BudgetAction) {
    match a
    case Admit(lane, _, _) => lane < |g.lanes| && g.lanes[lane].Free?
    case Record(lane, _) => lane < |g.lanes| && g.lanes[lane].Admitted?
    case Persist(lane) => lane < |g.lanes| && g.lanes[lane].Persisting?
    case Forget(lane) => lane < |g.lanes| && g.lanes[lane].Admitted?
    case Restart(_) => true
  }

  function Rolled(g: Budget, today: int): Budget {
    if today != g.day then g.(day := today, used := 0) else g
  }

  predicate Admits(g: Budget, bytes: nat) {
    g.limit > 0 ==> g.used + bytes <= g.limit
  }

  function BudgetApply(g: Budget, a: BudgetAction): Budget
    requires BudgetEnabled(g, a)
  {
    match a
    case Admit(lane, today, bytes) =>
      var r := Rolled(g, today);
      if Admits(r, bytes) then r.(lanes := g.lanes[lane := Admitted(bytes)]) else r
    case Record(lane, today) =>
      var r := Rolled(g, today);
      var total := r.used + g.lanes[lane].bytes;
      r.(used := total, lanes := g.lanes[lane := Persisting(r.day, total)])
    case Persist(lane) => g.(saved := Some(Counter(g.lanes[lane].day, g.lanes[lane].total)), lanes := g.lanes[lane := Free])
    case Forget(lane) => g.(lanes := g.lanes[lane := Free])
    case Restart(today) =>
      g.(day := today,
         used := if g.saved.Some? && g.saved.value.day == today then g.saved.value.total else 0,
         lanes := seq(|g.lanes|, i => Free))
  }

  function Weight(s: Slot): nat {
    if s.Admitted? then s.bytes else 0
  }

  function Outstanding(lanes: seq<Slot>): nat {
    if lanes == [] then 0 else Weight(lanes[0]) + Outstanding(lanes[1..])
  }

  lemma {:induction false} OutstandingUpdate(lanes: seq<Slot>, k: nat, s: Slot)
    requires k < |lanes|
    ensures Outstanding(lanes[k := s]) + Weight(lanes[k]) == Outstanding(lanes) + Weight(s)
  {
    if k == 0 {
      assert lanes[k := s][1..] == lanes[1..];
    } else {
      OutstandingUpdate(lanes[1..], k - 1, s);
      assert lanes[k := s][1..] == lanes[1..][k - 1 := s];
    }
  }

  lemma {:induction false} OutstandingIsBounded(lanes: seq<Slot>, most: nat)
    requires forall i :: 0 <= i < |lanes| ==> Weight(lanes[i]) <= most
    ensures Outstanding(lanes) <= |lanes| * most
  {
    if lanes != [] {
      OutstandingIsBounded(lanes[1..], most);
      assert |lanes| * most == most + (|lanes| - 1) * most;
    }
  }

  /** With one lane idle, the others hold at most one batch each. */
  lemma {:induction false} OthersAreBounded(lanes: seq<Slot>, k: nat, most: nat)
    requires k < |lanes| && Weight(lanes[k]) == 0
    requires forall i :: 0 <= i < |lanes| ==> Weight(lanes[i]) <= most
    ensures Outstanding(lanes) <= (|lanes| - 1) * most
  {
    if k == 0 {
      OutstandingIsBounded(lanes[1..], most);
    } else {
      OthersAreBounded(lanes[1..], k - 1, most);
      assert (|lanes| - 1) * most == most + (|lanes| - 2) * most;
    }
  }

  lemma {:induction false} NothingOutstanding(lanes: seq<Slot>)
    requires forall i :: 0 <= i < |lanes| ==> lanes[i] == Free
    ensures Outstanding(lanes) == 0
  {
    if lanes != [] {
      NothingOutstanding(lanes[1..]);
    }
  }

  function Ceiling(g: Budget, most: nat): int {
    g.limit + (|g.lanes| - 1) * most
  }

  predicate BudgetInv(g: Budget, most: nat) {
    && g.lanes != []
    && g.limit > 0
    && (forall i :: 0 <= i < |g.lanes| ==> Weight(g.lanes[i]) <= most)
    && (forall i :: 0 <= i < |g.lanes| && g.lanes[i].Persisting? ==> g.lanes[i].total <= Ceiling(g, most))
    && (g.saved.Some? ==> g.saved.value.total <= Ceiling(g, most))
    && g.used + Outstanding(g.lanes) <= Ceiling(g, most)
  }

  lemma {:induction false} CeilingIsNonNegative(g: Budget, most: nat)
    requires g.lanes != []
    ensures Ceiling(g, most) >= 0
  {
    assert (|g.lanes| - 1) * most >= 0;
  }

  lemma {:induction false} BudgetStep(g: Budget, a: BudgetAction, most: nat)
    requires BudgetInv(g, most) && BudgetEnabled(g, a) && (a.Admit? ==> a.bytes <= most)
    ensures BudgetInv(BudgetApply(g, a), most)
  {
    var h := BudgetApply(g, a);
    assert Ceiling(h, most) == Ceiling(g, most);
    if a.Restart? {
      NothingOutstanding(h.lanes);
      CeilingIsNonNegative(g, most);
    } else {
      OutstandingUpdate(g.lanes, a.lane, h.lanes[a.lane]);
      assert h.lanes == g.lanes[a.lane := h.lanes[a.lane]];
      if a.Admit? {
        OthersAreBounded(g.lanes, a.lane, most);
      }
    }
  }

  predicate BudgetLegal(g: Budget, run: seq<BudgetAction>, most: nat)
    decreases |run|
  {
    run == [] || (&& BudgetEnabled(g, run[0]) && (run[0].Admit? ==> run[0].bytes <= most)
                  && BudgetLegal(BudgetApply(g, run[0]), run[1..], most))
  }

  function BudgetFinal(g: Budget, run: seq<BudgetAction>, most: nat): Budget
    requires BudgetLegal(g, run, most)
    decreases |run|
  {
    if run == [] then g else BudgetFinal(BudgetApply(g, run[0]), run[1..], most)
  }

  lemma {:induction false} BudgetRun(g: Budget, run: seq<BudgetAction>, most: nat)
    requires BudgetInv(g, most) && BudgetLegal(g, run, most)
    ensures BudgetInv(BudgetFinal(g, run, most), most)
    ensures BudgetFinal(g, run, most).limit == g.limit && |BudgetFinal(g, run, most).lanes| == |g.lanes|
    decreases |run|
  {
    if run != [] {
      BudgetStep(g, run[0], most);
      BudgetRun(BudgetApply(g, run[0]), run[1..], most);
    }
  }

  /**
   In every run of n lanes with batches of at most `most` bytes, through day changes, failed pushes and restarts, the
   bytes recorded today plus those admitted but not yet recorded never exceed limit + (n-1) * most.
   */
  lemma {:induction false} BudgetOvershootIsBounded(limit: nat, today: int, n: nat, run: seq<BudgetAction>, most: nat)
    requires limit > 0 && n > 0
    requires BudgetLegal(Budget(limit, today, 0, None, seq(n, i => Free)), run, most)
    ensures var g := BudgetFinal(Budget(limit, today, 0, None, seq(n, i => Free)), run, most);
            g.used + Outstanding(g.lanes) <= limit + (n - 1) * most
  {
    var g := Budget(limit, today, 0, None, seq(n, i => Free));
    NothingOutstanding(g.lanes);
    CeilingIsNonNegative(g, most);
    BudgetRun(g, run, most);
  }

  // ----- the objects -----

  class TokenBucket {
    const rate: real
    var tokens: real
    var last: real

    constructor (rate: real, now: real)
      ensures View() == Bucket(rate, rate, now)
    {
      this.rate, tokens, last := rate, rate, now;
    }

    function View(): Bucket
      reads this
    {
      Bucket(rate, tokens, last)
    }

    method Refill(now: real)
      modifies this
      ensures View() == Refilled(old(View()), now)
    {
      if now > last {
        tokens := Min(rate, tokens + Accrual(rate, now - last));
        last := now;
      }
    }

    method WaitTime(amount: real, now: real) returns (wait: real)
      requires rate > 0.0
      modifies this
      ensures View() == Refilled(old(View()), now)
      ensures wait == Wait(old(View()), amount, now)
    {
      Refill(now);
      var need := Min(amount, rate);
      if tokens >= need {
        return 0.0;
      }
      wait := (need - tokens) / rate;
    }

    method Consume(amount: real, now: real)
      modifies this
      ensures View() == Consumed(old(View()), amount, now)
    {
      Refill(now);
      tokens := tokens - amount;
    }
  }

  class EgressGovernor {
    const limit: nat
    const lineBucket: TokenBucket?
    const byteBucket: TokenBucket?
    var day: int
    var used: nat

    constructor (limit: nat, lineBucket: TokenBucket?, byteBucket: TokenBucket?, today: int)
      ensures this.limit == limit && this.lineBucket == lineBucket && this.byteBucket == byteBucket
      ensures day == today && used == 0
    {
      this.limit, this.lineBucket, this.byteBucket := limit, lineBucket, byteBucket;
      day, used := today, 0;
    }

    /** The budget as the governor itself sees it: the store and the lanes are not its fields. */
    function View(): Budget
      reads this
    {
      Budget(limit, day, used, None, [])
    }

    function GateView(): Gate
      reads this, lineBucket, byteBucket
    {
      Gate(if lineBucket != null then Some(lineBucket.View()) else None,
           if byteBucket != null then Some(byteBucket.View()) else None)
    }

    /** One turn of the throttle loop; between turns the lane sleeps for the wait. */
    method ThrottleTurn(l: Look) returns (passed: bool, wait: real)
      requires lineBucket != null ==> lineBucket.rate > 0.0 && lineBucket != byteBucket
      requires byteBucket != null ==> byteBucket.rate > 0.0
      modifies lineBucket, byteBucket
      ensures passed <==> Agrees(old(GateView()), l)
      ensures wait == GateWait(old(GateView()), l)
      ensures GateView() == GateStep(old(GateView()), l.(passed := passed))
    {
      wait := 0.0;
      if lineBucket != null {
        var w := lineBucket.WaitTime(l.lines, l.lineCheck);
        wait := Max(wait, w);
      }
      if byteBucket != null {
        var w := byteBucket.WaitTime(l.bytes, l.byteCheck);
        wait := Max(wait, w);
      }
      passed := wait <= 0.0;
      if passed {
        if lineBucket != null {
          lineBucket.Consume(l.lines, l.lineTake);
        }
        if byteBucket != null {
          byteBucket.Consume(l.bytes, l.byteTake);
        }
      }
    }

    /** Loads the persisted counter; one of another day counts as nothing. */
    method Start(today: int, saved: Option<Counter>)
      modifies this
      ensures limit > 0 ==> View() == BudgetApply(old(View()).(saved := saved), Restart(today)).(saved := None)
      ensures limit == 0 ==> day == today && used == 0
    {
      day := today;
      used := 0;
      if limit > 0 && saved.Some? && saved.value.day == day {
        used := saved.value.total;
      }
    }

    method MaybeRollover(today: int)
      modifies this
      ensures View() == Rolled(old(View()), today)
    {
      if today != day {
        day := today;
        used := 0;
      }
    }

    /** Admission in drop mode: an over-budget batch is refused. */
    method Admit(today: int, bytes: nat) returns (admitted: bool)
      modifies this
      ensures limit > 0 ==> View() == Rolled(old(View()), today) && (admitted <==> Admits(View(), bytes))
      ensures limit == 0 ==> admitted && unchanged(this)
    {
      if limit > 0 {
        MaybeRollover(today);
        if used + bytes > limit {
          return false;
        }
      }
      admitted := true;
    }

    /** Accounts a pushed batch and hands back the counter to persist. */
    method Record(today: int, bytes: nat) returns (counter: Option<Counter>)
      modifies this
      ensures limit > 0 ==>
                var r := Rolled(old(View()), today);
                View() == r.(used := r.used + bytes) && counter == Some(Counter(r.day, r.used + bytes))
      ensures limit == 0 ==> counter.None? && unchanged(this)
    {
      if limit == 0 {
        return None;
      }
      MaybeRollover(today);
      used := used + bytes;
      counter := Some(Counter(day, used));
    }
  }
}
