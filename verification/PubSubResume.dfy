/**
 Where a topic's stream begins (src/sf2loki/sources/pubsub_source.py): at the last position received, at EARLIEST once a
 replay id was refused, and before any position is known where the configuration says.
 */
module PubSubResume {
  import opened Options
  import opened PubSub

  /** What the run so far says about the next stream. */
  datatype Resume = Unknown | From(position: nat) | FellBack

  /** The server says that the replay id is not one it can resume from, or does not deny it. */
  predicate Refuses(failure: Failure) {
    failure.InvalidArgument? && failure.confirms != Some(false)
  }

  function AfterError(m: Resume, failure: Failure): Resume {
    if m.From? && Refuses(failure) then FellBack else m
  }

  function Noted(s: System, m: Resume, a: Action): Resume
    requires Enabled(s, a)
  {
    match a
    case Load(stored) => if stored.At? then From(stored.position) else Unknown
    case Deliver(decodes) => if decodes then From(NextEvent(s, s.phase.cursor)) else m
    case Keepalive(latest) => From(latest)
    case Reject(failure) => AfterError(m, failure)
    case Fail(failure) => AfterError(m, failure)
    case _ => m
  }

  function NotedAll(preset: Preset, s: System, m: Resume, run: seq<Action>): Resume
    requires Legal(preset, s, run)
    decreases |run|
  {
    if run == [] then m else NotedAll(preset, Apply(preset, s, run[0]), Noted(s, m, run[0]), run[1..])
  }

  /** Where a stream that begins now must begin. */
  function Due(preset: Preset, s: System, m: Resume): nat {
    match m
    case From(position) => position
    case FellBack => s.oldest
    case Unknown => if preset.Earliest? then s.oldest else s.head
  }

  /** The resume position is the one noted. */
  predicate Keeps(preset: Preset, s: System, m: Resume) {
    && (s.phase.Loading? ==> m.Unknown?)
    && (!s.phase.Loading? && !s.phase.Stopped? ==>
          match m
          case From(position) => s.position.preset.Custom? && s.position.replay == Some(position)
          case FellBack => s.position.preset.Earliest? && s.position.replay.None?
          case Unknown => s.position.replay.None? && !s.position.preset.Custom? && (s.position.preset.Earliest? <==> preset.Earliest?))
  }

  lemma {:induction false} StepKeepsNotes(preset: Preset, s: System, a: Action, m: Resume)
    requires Enabled(s, a) && Keeps(preset, s, m)
    ensures Keeps(preset, Apply(preset, s, a), Noted(s, m, a))
  {
  }

  lemma {:induction false} RunKeepsNotes(preset: Preset, s: System, run: seq<Action>, m: Resume)
    requires Legal(preset, s, run) && Keeps(preset, s, m)
    ensures Keeps(preset, Final(preset, s, run), NotedAll(preset, s, m, run))
    decreases |run|
  {
    if run != [] {
      StepKeepsNotes(preset, s, run[0], m);
      RunKeepsNotes(preset, Apply(preset, s, run[0]), run[1..], Noted(s, m, run[0]));
    }
  }

  /**
   In every run a stream begins exactly where the last position received says; at the oldest event once the server has
   refused a replay id; and before any position, at the oldest event if EARLIEST is configured and at the head otherwise.
   */
  lemma {:induction false} ResumesExactly(preset: Preset, head: nat, oldest: nat, run: seq<Action>)
    requires Legal(preset, Opening(head, oldest), run) && Enabled(Final(preset, Opening(head, oldest), run), Subscribe)
    ensures var s := Final(preset, Opening(head, oldest), run);
            var due := Due(preset, s, NotedAll(preset, Opening(head, oldest), Unknown, run));
            Apply(preset, s, Subscribe).phase == Streaming(due, due)
  {
    RunKeepsNotes(preset, Opening(head, oldest), run, Unknown);
  }

  /** A stream never waits for a position the server has let go: after a refusal the next stream can begin at once. */
  lemma {:induction false} RefusalIsNotFinal(preset: Preset, head: nat, oldest: nat, run: seq<Action>, failure: Failure)
    requires Legal(preset, Opening(head, oldest), run) && Refuses(failure)
    requires Enabled(Final(preset, Opening(head, oldest), run), Reject(failure))
    ensures var s := Apply(preset, Final(preset, Opening(head, oldest), run), Reject(failure));
            && Enabled(s, Subscribe)
            && Apply(preset, s, Subscribe).phase.Streaming?
  {
    RunKeepsNotes(preset, Opening(head, oldest), run, Unknown);
  }

  // ----- what a stream delivers is enqueued -----

  /** From a live stream the next event still held, if it decodes, is enqueued, and the stream goes on behind it. */
  lemma {:induction false} EventIsEnqueued(preset: Preset, s: System)
    requires Enabled(s, Deliver(true))
    ensures var e, t := NextEvent(s, s.phase.cursor), Apply(preset, s, Deliver(true));
            && Enabled(t, Put)
            && var u := Apply(preset, t, Put);
               && u.enqueued == s.enqueued + {e} && u.errors == s.errors && u.lost == s.lost
               && u.phase == Streaming(s.phase.start, e) && u.position == Position(Custom, Some(e))
  {
  }
}
