/**
 The subscribe loop of one Pub/Sub topic (src/sf2loki/sources/pubsub_source.py, `_run_topic`, and the stream of
 src/sf2loki/salesforce/pubsub_client.py, `subscribe`): reconnects, replay positions and the EARLIEST fallback.

 Events are numbered 1, 2, ... in server order; position `p` means "after event p". The server publishes and expires
 events at any time, streams fail or end at any time.
 */
module PubSub {
  import opened Options

  datatype Preset = Latest | Earliest | Custom

  /** The topic's resume position: the replay preset and, when it is CUSTOM, the replay id. */
  datatype Position = Position(preset: Preset, replay: Option<nat>)

  datatype Stored = Missing | Corrupt | At(position: nat)

  /** An error of a stream; INVALID_ARGUMENT comes with a trailer that confirms or denies a bad replay id, or without one. */
  datatype Failure = Other | InvalidArgument(confirms: Option<bool>)

  function Configured(preset: Preset): Position {
    Position(if preset.Custom? then Latest else preset, None)
  }

  function Loaded(preset: Preset, stored: Stored): Position {
    if stored.At? then Position(Custom, Some(stored.position)) else Configured(preset)
  }

  /** The position once an event, or a keepalive that moves it, was received. */
  function AfterReceipt(position: nat): Position {
    Position(Custom, Some(position))
  }

  /** A keepalive that repeats the position is ignored. */
  predicate Moves(p: Position, latest: nat) {
    p.replay != Some(latest)
  }

  /** The position to resume from after a failure: a replay id the server refuses gives way to EARLIEST, never to LATEST. */
  function AfterFailure(p: Position, e: Failure): Position {
    if e.InvalidArgument? && p.preset.Custom? && e.confirms != Some(false) then Position(Earliest, None) else p
  }

  datatype Phase =
    | Loading
    | Waiting
    | Streaming(start: nat, cursor: nat)
    | Putting(start: nat, cursor: nat, item: nat)
    | Stopped

  /**
   The topic task and the server. `enqueued` and `errors` are the events enqueued (with their line or as a bare token)
   and those counted as decode errors; `lost` are those that expired before either, and `vouched` those the server
   passed over in a keepalive without delivering them. `first` is where the stream began that gave the first valid
   position; `reach` is the highest valid position so far.
   */
  datatype System = System(head: nat, oldest: nat, phase: Phase, position: Position, first: Option<nat>, reach: nat,
                           enqueued: set<nat>, errors: set<nat>, lost: set<nat>, vouched: set<nat>)

  datatype Action =
    | Publish
    | Expire(upto: nat)
    | LoadFails
    | Load(stored: Stored)
    | Subscribe
    | Reject(failure: Failure)
    | Deliver(decodes: bool)
    | Keepalive(latest: nat)
    | Put
    | End
    | Fail(failure: Failure)
    | Stop

  /** Where a stream begins. */
  function Begin(s: System): nat {
    match s.position.preset
    case Latest => s.head
    case Earliest => s.oldest
    case Custom => if s.position.replay.Some? then s.position.replay.value else s.head
  }

  /** The next event on a stream: expired ones are no longer delivered. */
  function NextEvent(s: System, cursor: nat): nat {
    (if cursor < s.oldest then s.oldest else cursor) + 1
  }

  /** Enqueued, counted, expired before that, or passed over by the server. */
  predicate Covered(s: System, e: nat) {
    e in s.enqueued || e in s.errors || e in s.lost || e in s.vouched || (s.phase.Putting? && s.phase.item == e)
  }

  function Range(low: nat, high: nat): (r: set<nat>)
    ensures forall e :: e in r <==> low < e <= high
    decreases high
  {
    if high <= low then {} else Range(low, high - 1) + {high}
  }

  predicate Enabled(s: System, a: Action) {
    match a
    case Publish => true
    case Expire(upto) => s.oldest <= upto <= s.head
    case LoadFails => s.phase.Loading?
    case Load(stored) => s.phase.Loading? && (stored.At? ==> stored.position <= s.head)
    case Subscribe => s.phase.Waiting? && (s.position.replay.Some? ==> s.oldest <= s.position.replay.value <= s.head)
    case Reject(_) => s.phase.Waiting?
    case Deliver(_) => s.phase.Streaming? && NextEvent(s, s.phase.cursor) <= s.head
    case Keepalive(latest) => s.phase.Streaming? && latest <= s.head
    case Put => s.phase.Putting?
    case End => s.phase.Streaming?
    case Fail(_) => s.phase.Streaming?
    case Stop => !s.phase.Putting?
  }

  /** A valid position became known on a stream that began at `start`. */
  function Learned(s: System, start: nat, position: nat): System {
    s.(position := AfterReceipt(position),
       first := if s.first.None? then Some(start) else s.first,
       reach := if s.first.None? || s.reach < position then position else s.reach)
  }

  function Apply(preset: Preset, s: System, a: Action): System
    requires Enabled(s, a)
  {
    match a
    case Publish => s.(head := s.head + 1)
    case Expire(upto) => s.(oldest := upto, lost := s.lost + (set e | e in Range(s.oldest, upto) && !Covered(s, e)))
    case LoadFails => s
    case Load(stored) =>
      var loaded := s.(phase := Waiting, position := Loaded(preset, stored));
      if stored.At? then Learned(loaded, stored.position, stored.position) else loaded
    case Subscribe => s.(phase := Streaming(Begin(s), Begin(s)))
    case Reject(failure) => s.(position := AfterFailure(s.position, failure))
    case Deliver(decodes) =>
      var e, start := NextEvent(s, s.phase.cursor), s.phase.start;
      if decodes then Learned(s, start, e).(phase := Putting(start, e, e))
      else s.(phase := Streaming(start, e), errors := s.errors + {e})
    case Keepalive(latest) =>
      if !Moves(s.position, latest) then s
      else
        Learned(s, s.phase.start, latest).(vouched := s.vouched + (set e | e in Range(s.phase.cursor, latest) && !Covered(s, e)))
    case Put => s.(phase := Streaming(s.phase.start, s.phase.cursor), enqueued := s.enqueued + {s.phase.item})
    case End => s.(phase := Waiting)
    case Fail(failure) => s.(phase := Waiting, position := AfterFailure(s.position, failure))
    case Stop => s.(phase := Stopped)
  }

  // ----- what every step keeps -----

  predicate CoveredFrom(s: System, low: nat, high: nat) {
    forall e: nat :: low < e <= high ==> Covered(s, e)
  }

  /** Events that have expired are accounted for, one way or another. */
  predicate ExpiredInv(s: System) {
    CoveredFrom(s, 0, s.oldest)
  }

  /** Once a valid position is known, LATEST is not used, and all up to the highest position is covered. */
  predicate PositionInv(s: System) {
    && (s.position.preset.Custom? <==> s.position.replay.Some?)
    && (s.position.replay.Some? ==> s.first.Some? && s.position.replay.value <= s.reach)
    && (s.first.Some? ==> !s.position.preset.Latest? && CoveredFrom(s, s.first.value, s.reach))
  }

  predicate StreamInv(s: System) {
    match s.phase
    case Streaming(start, cursor) => start <= cursor && StreamCovers(s, start, cursor)
    case Putting(start, cursor, item) =>
      start <= cursor && item == cursor && StreamCovers(s, start, cursor) && s.first.Some? && s.position == Position(Custom, Some(item))
    case _ => true
  }

  /** A live stream has covered what it has passed, and it began no later than what was covered before. */
  predicate StreamCovers(s: System, start: nat, cursor: nat) {
    && CoveredFrom(s, start, cursor)
    && (s.first.Some? ==> CoveredFrom(s, s.first.value, cursor))
  }

  predicate Inv(s: System) {
    s.oldest <= s.head && ExpiredInv(s) && PositionInv(s) && StreamInv(s) && (s.phase.Loading? ==> s.first.None?)
  }

  lemma {:induction false} ExpireKeepsInv(preset: Preset, s: System, upto: nat)
    requires Inv(s) && Enabled(s, Expire(upto))
    ensures Inv(Apply(preset, s, Expire(upto)))
  {
    var t := Apply(preset, s, Expire(upto));
    assert forall e: nat :: Covered(s, e) ==> Covered(t, e);
    forall e: nat | 0 < e <= upto
      ensures Covered(t, e)
    {
      assert e <= s.oldest ==> Covered(s, e);
      assert e > s.oldest ==> e in Range(s.oldest, upto);
    }
  }

  lemma {:induction false} SubscribeKeepsInv(preset: Preset, s: System)
    requires Inv(s) && Enabled(s, Subscribe)
    ensures Inv(Apply(preset, s, Subscribe))
  {
    var t := Apply(preset, s, Subscribe);
    assert forall e: nat :: Covered(s, e) <==> Covered(t, e);
    if s.first.Some? {
      if s.position.preset.Earliest? {
        assert CoveredFrom(t, s.first.value, s.oldest);
      } else {
        assert CoveredFrom(t, s.first.value, s.position.replay.value);
      }
    }
  }

  /** The stream moves to its next event: what it skipped has expired. */
  lemma {:induction false} NextIsContiguous(s: System, low: nat, cursor: nat)
    requires ExpiredInv(s) && CoveredFrom(s, low, cursor)
    ensures CoveredFrom(s, low, NextEvent(s, cursor) - 1)
  {
  }

  lemma {:induction false} DecodeErrorKeepsInv(preset: Preset, s: System)
    requires Inv(s) && Enabled(s, Deliver(false))
    ensures Inv(Apply(preset, s, Deliver(false)))
  {
    var t := Apply(preset, s, Deliver(false));
    assert forall e: nat :: Covered(s, e) ==> Covered(t, e);
    NextIsContiguous(s, s.phase.start, s.phase.cursor);
    assert CoveredFrom(t, s.phase.start, t.phase.cursor);
    if s.first.Some? {
      NextIsContiguous(s, s.first.value, s.phase.cursor);
      assert CoveredFrom(t, s.first.value, t.phase.cursor);
    }
  }

  lemma {:induction false} EventKeepsInv(preset: Preset, s: System)
    requires Inv(s) && Enabled(s, Deliver(true))
    ensures Inv(Apply(preset, s, Deliver(true)))
  {
    var t := Apply(preset, s, Deliver(true));
    assert forall e: nat :: Covered(s, e) ==> Covered(t, e);
    NextIsContiguous(s, s.phase.start, s.phase.cursor);
    assert CoveredFrom(t, s.phase.start, t.phase.cursor);
    if s.first.Some? {
      NextIsContiguous(s, s.first.value, s.phase.cursor);
      assert CoveredFrom(t, s.first.value, t.phase.cursor);
    }
  }

  lemma {:induction false} KeepaliveKeepsInv(preset: Preset, s: System, latest: nat)
    requires Inv(s) && Enabled(s, Keepalive(latest))
    ensures Inv(Apply(preset, s, Keepalive(latest)))
  {
    var t := Apply(preset, s, Keepalive(latest));
    assert forall e: nat :: Covered(s, e) ==> Covered(t, e);
    if Moves(s.position, latest) {
      forall e: nat | s.phase.cursor < e <= latest
        ensures Covered(t, e)
      {
        assert e in Range(s.phase.cursor, latest);
      }
    }
  }

  lemma {:induction false} StepKeepsInv(preset: Preset, s: System, a: Action)
    requires Inv(s) && Enabled(s, a)
    ensures Inv(Apply(preset, s, a))
  {
    var t := Apply(preset, s, a);
    match a
    case Expire(upto) => ExpireKeepsInv(preset, s, upto);
    case Subscribe => SubscribeKeepsInv(preset, s);
    case Deliver(decodes) =>
      if decodes {
        EventKeepsInv(preset, s);
      } else {
        DecodeErrorKeepsInv(preset, s);
      }
    case Keepalive(latest) => KeepaliveKeepsInv(preset, s, latest);
    case _ => assert forall e: nat :: Covered(s, e) <==> Covered(t, e);
  }

  predicate Legal(preset: Preset, s: System, run: seq<Action>)
    decreases |run|
  {
    run == [] || (Enabled(s, run[0]) && Legal(preset, Apply(preset, s, run[0]), run[1..]))
  }

  function Final(preset: Preset, s: System, run: seq<Action>): System
    requires Legal(preset, s, run)
    decreases |run|
  {
    if run == [] then s else Final(preset, Apply(preset, s, run[0]), run[1..])
  }

  lemma {:induction false} RunKeepsInv(preset: Preset, s: System, run: seq<Action>)
    requires Inv(s) && Legal(preset, s, run)
    ensures Inv(Final(preset, s, run))
    decreases |run|
  {
    if run != [] {
      StepKeepsInv(preset, s, run[0]);
      RunKeepsInv(preset, Apply(preset, s, run[0]), run[1..]);
    }
  }

  /** A topic that starts while the server holds the events after `oldest`. */
  function Opening(head: nat, oldest: nat): System {
    System(head, oldest, Loading, Position(Latest, None), None, 0, {}, {}, Range(0, oldest), {})
  }

  /** The server let no event after the first position expire undelivered, and passed none over in a keepalive. */
  predicate Delivering(s: System) {
    s.first.Some? ==>
      && (forall e :: e in s.lost ==> e <= s.first.value)
      && (forall e :: e in s.vouched ==> e <= s.first.value)
  }

  /**
   Whatever errors, ends, keepalives and fallbacks occur: once a valid position is known LATEST is never used again, and
   every event after the first position up to the resume position was enqueued (or is being enqueued) or counted as a
   decode error, except those the server let expire or passed over itself.
   */
  lemma {:induction false} NothingIsSkipped(preset: Preset, head: nat, oldest: nat, run: seq<Action>, e: nat)
    requires oldest <= head && Legal(preset, Opening(head, oldest), run)
    requires var s := Final(preset, Opening(head, oldest), run);
             s.first.Some? && s.position.replay.Some? && s.first.value < e <= s.position.replay.value
    ensures var s := Final(preset, Opening(head, oldest), run);
            && (e in s.enqueued || e in s.errors || e in s.lost || e in s.vouched || (s.phase.Putting? && s.phase.item == e))
            && (Delivering(s) ==> e !in s.lost && e !in s.vouched)
  {
    RunKeepsInv(preset, Opening(head, oldest), run);
    assert Covered(Final(preset, Opening(head, oldest), run), e);
  }

  lemma {:induction false} LatestIsNeverUsedAgain(preset: Preset, head: nat, oldest: nat, run: seq<Action>)
    requires oldest <= head && Legal(preset, Opening(head, oldest), run)
    ensures var s := Final(preset, Opening(head, oldest), run); s.first.Some? ==> !s.position.preset.Latest?
  {
    RunKeepsInv(preset, Opening(head, oldest), run);
  }

  /** A known position stays known. */
  lemma {:induction false} FirstStays(preset: Preset, s: System, run: seq<Action>)
    requires Legal(preset, s, run) && s.first.Some? && !s.phase.Loading?
    ensures Final(preset, s, run).first == s.first
    decreases |run|
  {
    if run != [] {
      FirstStays(preset, Apply(preset, s, run[0]), run[1..]);
    }
  }

  /** The fields of the topic task, updated as the stream goes. */
  class TopicTask {
    const configured: Preset
    var preset: Preset
    var replayId: Option<nat>
    var positionLoaded: bool

    function View(): Position
      reads this
    {
      Position(preset, replayId)
    }

    constructor (configured: Preset)
      ensures this.configured == configured && View() == Opening(0, 0).position && !positionLoaded
    {
      this.configured, preset, replayId, positionLoaded := configured, Latest, None, false;
    }

    method LoadPosition(stored: Stored)
      modifies this
      ensures View() == Loaded(configured, stored) && positionLoaded
    {
      match stored
      case At(position) =>
        replayId, preset, positionLoaded := Some(position), Custom, true;
      case _ =>
        preset := if configured.Custom? then Latest else configured;
        replayId, positionLoaded := None, true;
    }

    /** Returns whether a bare token must be enqueued. */
    method OnKeepalive(latest: nat) returns (moved: bool)
      modifies this
      ensures moved == Moves(old(View()), latest) && positionLoaded == old(positionLoaded)
      ensures View() == if moved then AfterReceipt(latest) else old(View())
    {
      moved := replayId != Some(latest);
      if moved {
        replayId, preset := Some(latest), Custom;
      }
    }

    method OnEvent(position: nat)
      modifies this
      ensures View() == AfterReceipt(position) && positionLoaded == old(positionLoaded)
    {
      replayId, preset := Some(position), Custom;
    }

    method OnFailure(e: Failure)
      modifies this
      ensures View() == AfterFailure(old(View()), e) && positionLoaded == old(positionLoaded)
    {
      if e.InvalidArgument? && preset.Custom? {
        if e.confirms != Some(false) {
          replayId, preset := None, Earliest;
        }
      }
    }
  }
}
