/**
 What an instance of the S3 or GCS checkpoint store knows after a load, a commit or a reset
 (src/sf2loki/state/s3_store.py and gcs_store.py): without another writer it is never refused and reads what it wrote.
 */
module ObjectStoreSync {
  import opened Options
  import opened ObjectStore

  /** The instance is idle and has cached the stored document under its current token. */
  predicate InSync(s: System, who: Instance) {
    && who in s.clients && s.clients[who].phase.Idle?
    && s.clients[who].cache == Some(s.server.Content())
    && s.clients[who].token == s.server.Current()
  }

  /** Nothing lands and `who` does not act; the others may do anything else. */
  predicate Quiet(run: seq<Action>, who: Instance) {
    forall i :: 0 <= i < |run| ==> !run[i].Lands? && run[i].who != who
  }

  lemma {:induction false} QuietKeeps(s: System, run: seq<Action>, who: Instance)
    requires Legal(s, run) && Quiet(run, who) && who in s.clients
    ensures var t := Final(s, run);
            && who in t.clients && t.clients[who] == s.clients[who]
            && t.server == s.server && t.backend == s.backend && s.puts <= t.puts && s.responses <= t.responses
    decreases |run|
  {
    if run != [] {
      assert !run[0].Lands? && run[0].who != who;
      QuietKeeps(Apply(s, run[0]), run[1..], who);
    }
  }

  // ----- loading -----

  /** An S3 load during which nothing lands ends in sync, exactly if there is no object or its answer carried the ETag. */
  lemma {:induction false} S3LoadSyncs(s: System, who: Instance, q: seq<Action>, tagged: bool)
    requires s.backend.S3? && who in s.clients && s.clients[who].phase.Idle? && s.clients[who].cache.None?
    requires Enabled(s, GetObject(who)) ==> Legal(Apply(s, GetObject(who)), q) && Quiet(q, who)
    ensures && Enabled(s, GetObject(who))
            && var t := Final(Apply(s, GetObject(who)), q);
               && Enabled(t, ReceiveObject(who, tagged))
               && var u := Apply(t, ReceiveObject(who, tagged));
                  && (InSync(u, who) <==> tagged || s.server.stored.Absent?)
                  && u.clients[who].cache == Some(u.server.Content())
  {
    QuietKeeps(Apply(s, GetObject(who)), q, who);
  }

  /** A GCS load of an absent object ends in sync after its first request ... */
  lemma {:induction false} GcsLoadOfNothingSyncs(s: System, who: Instance, q: seq<Action>)
    requires s.backend.Gcs? && who in s.clients && s.clients[who].phase.Idle? && s.clients[who].cache.None?
    requires s.server.stored.Absent?
    requires Enabled(s, GetGeneration(who)) ==> Legal(Apply(s, GetGeneration(who)), q) && Quiet(q, who)
    ensures && Enabled(s, GetGeneration(who))
            && var t := Final(Apply(s, GetGeneration(who)), q);
               Enabled(t, ReceiveGeneration(who)) && InSync(Apply(t, ReceiveGeneration(who)), who)
  {
    QuietKeeps(Apply(s, GetGeneration(who)), q, who);
  }

  /** The instance has asked for the body, with the current generation as its token. */
  predicate AwaitsBody(s: System, who: Instance) {
    && who in s.clients && s.clients[who].phase.AwaitBody?
    && s.server.stored.Present? && s.clients[who].token == s.server.Current()
  }

  /** ... and one of a stored object, after both. */
  lemma {:induction false} GcsGenerationArrives(s: System, who: Instance, q: seq<Action>)
    requires s.backend.Gcs? && who in s.clients && s.clients[who].phase.Idle? && s.clients[who].cache.None?
    requires s.server.stored.Present?
    requires Enabled(s, GetGeneration(who)) ==> Legal(Apply(s, GetGeneration(who)), q) && Quiet(q, who)
    ensures && Enabled(s, GetGeneration(who))
            && var t := Final(Apply(s, GetGeneration(who)), q);
               Enabled(t, ReceiveGeneration(who)) && AwaitsBody(Apply(t, ReceiveGeneration(who)), who)
  {
    QuietKeeps(Apply(s, GetGeneration(who)), q, who);
  }

  lemma {:induction false} GcsBodySyncs(s: System, who: Instance, before: seq<Action>, after: seq<Action>)
    requires AwaitsBody(s, who) && Legal(s, before) && Quiet(before, who)
    requires var t := Final(s, before); Enabled(t, GetBody(who)) ==> Legal(Apply(t, GetBody(who)), after) && Quiet(after, who)
    ensures var t := Final(s, before);
            && Enabled(t, GetBody(who))
            && var u := Final(Apply(t, GetBody(who)), after);
               Enabled(u, ReceiveBody(who)) && InSync(Apply(u, ReceiveBody(who)), who)
  {
    QuietKeeps(s, before, who);
    QuietKeeps(Apply(Final(s, before), GetBody(who)), after, who);
  }

  // ----- committing -----

  predicate MayUpdate(doc: Doc, update: Update) {
    update.Remove? ==> update.key in doc
  }

  /** The upload of an instance in sync is accepted as long as nothing else lands. */
  lemma {:induction false} UploadIsAccepted(s: System, who: Instance, update: Update, q: seq<Action>)
    requires InSync(s, who) && MayUpdate(s.server.Content(), update)
    requires Enabled(s, BeginPut(who, update)) ==> Legal(Apply(s, BeginPut(who, update)), q) && Quiet(q, who)
    ensures && Enabled(s, BeginPut(who, update))
            && var t := Final(Apply(s, BeginPut(who, update)), q);
               && who in t.clients && t.clients[who].phase.Putting?
               && var put := t.clients[who].phase.put;
                  && put in t.puts && Accepts(t.server, put) && put.update == update
                  && put.body == Updated(s.server.Content(), update) && t.server == s.server
  {
    QuietKeeps(Apply(s, BeginPut(who, update)), q, who);
  }

  /**
   Once acknowledged, an upload that is still the stored one is what the instance has cached, and the instance is in sync
   exactly if the answer carried the token.
   */
  lemma {:induction false} AcknowledgedIsKnown(s: System, who: Instance, response: Response, tagged: bool)
    requires Enabled(s, Answered(who, response, tagged)) && s.server.stored == Present(response.put.body, response.token)
    ensures var t := Apply(s, Answered(who, response, tagged));
            t.clients[who].phase.Idle? && t.clients[who].cache == Some(t.server.Content()) && (InSync(t, who) <==> tagged)
  {
  }

  /** The answer to an upload that landed gets there, whatever the others do short of landing one. */
  lemma {:induction false} UploadIsAcknowledged(s: System, who: Instance, token: Token, q: seq<Action>)
    requires who in s.clients && s.clients[who].phase.Putting?
    requires var put := s.clients[who].phase.put;
             Enabled(s, Lands(put, token)) && Legal(Apply(s, Lands(put, token)), q) && Quiet(q, who)
    ensures var put := s.clients[who].phase.put;
            var t := Final(Apply(s, Lands(put, token)), q);
            && Enabled(t, Answered(who, Response(put, token), true))
            && var u := Apply(t, Answered(who, Response(put, token), true));
               InSync(u, who) && u.server.Content() == put.body
  {
    var put := s.clients[who].phase.put;
    QuietKeeps(Apply(s, Lands(put, token)), q, who);
    AcknowledgedIsKnown(Final(Apply(s, Lands(put, token)), q), who, Response(put, token), true);
  }

  /**
   If the answer to an upload that landed is lost, the instance keeps what it had: its next upload is refused, unless the
   token the store issued happens to be the old one.
   */
  lemma {:induction false} LostAnswerIsNoticed(s: System, who: Instance, update: Update, token: Token, later: Update)
    requires InSync(s, who) && MayUpdate(s.server.Content(), update) && MayUpdate(s.server.Content(), later)
    requires MayIssue(s.backend, s.server, Updated(s.server.Content(), update), token)
    ensures var put := NewPut(s, who, s.clients[who], update);
            var t := Apply(Apply(Apply(s, BeginPut(who, update)), Lands(put, token)), Raises(who));
            && t.clients[who] == s.clients[who] && t.server.Content() == Updated(s.server.Content(), update)
            && Enabled(t, BeginPut(who, later))
            && (Accepts(t.server, NewPut(t, who, t.clients[who], later)) <==> s.server.Current() == Some(token))
  {
  }

  /** One commit or delete with nobody in between. */
  function Committed(s: System, who: Instance, update: Update, token: Token): System
    requires InSync(s, who) && MayUpdate(s.server.Content(), update)
    requires MayIssue(s.backend, s.server, Updated(s.server.Content(), update), token)
  {
    var put := NewPut(s, who, s.clients[who], update);
    Apply(Apply(Apply(s, BeginPut(who, update)), Lands(put, token)), Answered(who, Response(put, token), true))
  }

  datatype Write = Write(update: Update, token: Token)

  /** The store can answer these writes, one after the other. */
  predicate Answerable(s: System, who: Instance, writes: seq<Write>)
    requires InSync(s, who)
    decreases |writes|
  {
    writes == [] ||
    (&& MayUpdate(s.server.Content(), writes[0].update)
     && MayIssue(s.backend, s.server, Updated(s.server.Content(), writes[0].update), writes[0].token)
     && Answerable(Committed(s, who, writes[0].update, writes[0].token), who, writes[1..]))
  }

  function CommittedAll(s: System, who: Instance, writes: seq<Write>): System
    requires InSync(s, who) && Answerable(s, who, writes)
    decreases |writes|
  {
    if writes == [] then s else CommittedAll(Committed(s, who, writes[0].update, writes[0].token), who, writes[1..])
  }

  function Applied(doc: Doc, writes: seq<Write>): Doc
    decreases |writes|
  {
    if writes == [] then doc else Applied(Updated(doc, writes[0].update), writes[1..])
  }

  /** A sole writer is never refused, however often it writes, and always has cached what it wrote. */
  lemma {:induction false} SoleWriterStaysInSync(s: System, who: Instance, writes: seq<Write>)
    requires InSync(s, who) && Answerable(s, who, writes)
    ensures var t := CommittedAll(s, who, writes);
            && InSync(t, who) && t.server.Content() == Applied(s.server.Content(), writes)
            && t.clients[who].cache == Some(Applied(s.server.Content(), writes))
    decreases |writes|
  {
    if writes != [] {
      SoleWriterStaysInSync(Committed(s, who, writes[0].update, writes[0].token), who, writes[1..]);
    }
  }

  // ----- resetting -----

  predicate Asks(a: Action, who: Instance) {
    a == GetObject(who) || a == GetGeneration(who)
  }

  /** After a reset of an idle instance nothing is cached or written before it has asked the store again. */
  lemma {:induction false} ResetForgets(s: System, who: Instance, run: seq<Action>)
    requires Enabled(s, Reset(who)) && s.clients[who].phase.Idle?
    requires Legal(Apply(s, Reset(who)), run) && forall i :: 0 <= i < |run| ==> !Asks(run[i], who)
    ensures var t := Final(Apply(s, Reset(who)), run);
            who in t.clients && t.clients[who] == FRESH && forall update :: !Enabled(t, BeginPut(who, update))
  {
    FreshStays(Apply(s, Reset(who)), who, run);
  }

  lemma {:induction false} FreshStays(s: System, who: Instance, run: seq<Action>)
    requires who in s.clients && s.clients[who] == FRESH && Legal(s, run) && forall i :: 0 <= i < |run| ==> !Asks(run[i], who)
    ensures var t := Final(s, run); who in t.clients && t.clients[who] == FRESH
    decreases |run|
  {
    if run != [] {
      assert !Asks(run[0], who);
      FreshStays(Apply(s, run[0]), who, run[1..]);
    }
  }

  /** The instance waits for, or holds, an answer that fills the cache. */
  predicate Expects(s: System, c: Client) {
    match c.phase
    case GotObject(_) => true
    case GotGeneration(generation) => generation.None?
    case GotBody(_) => true
    case Putting(put) => exists r :: r in s.responses && r.put == put
    case _ => false
  }

  /** A step of the instance brings a document back that was asked for before the reset. */
  ghost predicate Undone(s: System, who: Instance) {
    exists a: Action :: !a.Lands? && a.who == who && Enabled(s, a) && who in Apply(s, a).clients && Apply(s, a).clients[who].cache.Some?
  }

  /** The next step of the instance undoes a reset exactly if the reset met an answer under way. */
  lemma {:induction false} ResetIsUndoneExactly(s: System, who: Instance)
    requires Enabled(s, Reset(who))
    ensures Undone(Apply(s, Reset(who)), who) <==> Expects(s, s.clients[who])
  {
    var t := Apply(s, Reset(who));
    if Expects(s, s.clients[who]) {
      match s.clients[who].phase
      case GotObject(_) => assert Apply(t, ReceiveObject(who, true)).clients[who].cache.Some?;
      case GotGeneration(_) => assert Apply(t, ReceiveGeneration(who)).clients[who].cache.Some?;
      case GotBody(_) => assert Apply(t, ReceiveBody(who)).clients[who].cache.Some?;
      case Putting(put) =>
        var r :| r in s.responses && r.put == put;
        assert Apply(t, Answered(who, r, true)).clients[who].cache.Some?;
      case _ =>
    }
  }
}
