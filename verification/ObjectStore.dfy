/**
 Checkpoint documents kept in one object of an object store (src/sf2loki/state/s3_store.py and gcs_store.py).

 Any number of instances cache the document with its token, the ETag or the generation, and write it back with a
 conditional upload. The server follows section 13.1.1 (If-Match), section 13.1.2 (If-None-Match) and
 section 15.5.13 (412) of RFC 9110. A request, once sent, may reach the server never, late, or several times (that
 covers retries), and its answer may be lost. Nothing else writes the object, and nobody deletes it.
 */
module ObjectStore {
  import opened Options

  type Doc = map<string, string>
  type Token = nat
  type Instance = string

  datatype Update = Merge(items: Doc) | Remove(key: string)

  function Updated(doc: Doc, update: Update): Doc {
    match update
    case Merge(items) => doc + items
    case Remove(key) => doc - {key}
  }

  /** The updates applied one after the other. */
  function Replay(start: Doc, log: seq<Update>): Doc {
    if log == [] then start else Updated(Replay(start, log[..|log| - 1]), log[|log| - 1])
  }

  lemma {:induction false} ReplayOneMore(start: Doc, log: seq<Update>, update: Update)
    ensures Replay(start, log + [update]) == Updated(Replay(start, log), update)
  {
    assert (log + [update])[..|log|] == log;
  }

  /** An ETag may come back when the same content does; a generation never does. */
  datatype Backend = S3 | Gcs

  datatype Object = Absent | Present(doc: Doc, token: Token)

  /** `issued` remembers the document every token was issued for, `log` the updates in the order they landed. */
  datatype Server = Server(stored: Object, issued: map<Token, Doc>, log: seq<Update>) {
    function Content(): Doc {
      if stored.Present? then stored.doc else map[]
    }

    function Current(): Option<Token> {
      if stored.Present? then Some(stored.token) else None
    }
  }

  /** A conditional upload; `base` is the cached document the body was computed from. */
  datatype Put = Put(who: Instance, id: nat, condition: Option<Token>, update: Update, base: Doc, body: Doc)

  datatype Response = Response(put: Put, token: Token)

  /** No condition token means the object must not exist yet. */
  predicate Accepts(server: Server, put: Put) {
    server.Current() == put.condition
  }

  predicate MayIssue(backend: Backend, server: Server, body: Doc, token: Token) {
    token !in server.issued || (backend.S3? && server.issued[token] == body)
  }

  function Landed(server: Server, put: Put, token: Token): Server {
    Server(Present(put.body, token), server.issued[token := put.body], server.log + [put.update])
  }

  /** What an instance waits for. The Gcs load asks for the generation first and for the body afterwards. */
  datatype Phase =
    | Idle
    | GotObject(stored: Object)
    | GotGeneration(generation: Option<Token>)
    | AwaitBody
    | GotBody(doc: Doc)
    | Putting(put: Put)

  datatype Client = Client(cache: Option<Doc>, token: Option<Token>, phase: Phase)

  const FRESH := Client(None, None, Idle)

  datatype System = System(
    backend: Backend,
    server: Server,
    clients: map<Instance, Client>,
    puts: set<Put>,
    responses: set<Response>,
    nextId: nat)

  datatype Action =
    | GetObject(who: Instance)
    | ReceiveObject(who: Instance, tagged: bool)
    | GetGeneration(who: Instance)
    | ReceiveGeneration(who: Instance)
    | GetBody(who: Instance)
    | ReceiveBody(who: Instance)
    | BeginPut(who: Instance, update: Update)
    | Lands(put: Put, token: Token)
    | Answered(who: Instance, response: Response, tagged: bool)
    | Raises(who: Instance)
    | Reset(who: Instance)
    | Restart(who: Instance)

  predicate Enabled(s: System, a: Action)
  {
    if a.Lands? then a.put in s.puts && Accepts(s.server, a.put) && MayIssue(s.backend, s.server, a.put.body, a.token)
    else if a.who !in s.clients then false
    else
      var c := s.clients[a.who];
      match a
      case GetObject(_) => s.backend.S3? && c.phase.Idle? && c.cache.None?
      case ReceiveObject(_, _) => c.phase.GotObject?
      case GetGeneration(_) => s.backend.Gcs? && c.phase.Idle? && c.cache.None?
      case ReceiveGeneration(_) => c.phase.GotGeneration?
      case GetBody(_) => c.phase.AwaitBody? && s.server.stored.Present?
      case ReceiveBody(_) => c.phase.GotBody?
      case BeginPut(_, update) => c.phase.Idle? && c.cache.Some? && (update.Remove? ==> update.key in c.cache.value)
      case Answered(_, response, _) => c.phase.Putting? && response in s.responses && response.put == c.phase.put
      case Raises(_) => !c.phase.Idle?
      case _ => true
  }

  function Move(s: System, who: Instance, c: Client): System {
    s.(clients := s.clients[who := c])
  }

  function NewPut(s: System, who: Instance, c: Client, update: Update): Put
    requires c.cache.Some?
  {
    Put(who, s.nextId, c.token, update, c.cache.value, Updated(c.cache.value, update))
  }

  // ----- an instance's reaction to each answer -----

  /** The S3 load ends: document and ETag came in one answer. */
  function AfterObject(c: Client, tagged: bool): Client
    requires c.phase.GotObject?
  {
    var stored := c.phase.stored;
    if stored.Absent? then Client(Some(map[]), None, Idle)
    else Client(Some(stored.doc), if tagged then Some(stored.token) else None, Idle)
  }

  /** The first half of the Gcs load keeps the generation and asks for the body. */
  function AfterGeneration(c: Client): Client
    requires c.phase.GotGeneration?
  {
    if c.phase.generation.None? then Client(Some(map[]), None, Idle) else c.(token := c.phase.generation, phase := AwaitBody)
  }

  function AfterBody(c: Client): Client
    requires c.phase.GotBody?
  {
    c.(cache := Some(c.phase.doc), phase := Idle)
  }

  /** Only an acknowledged put moves cache and token. */
  function AfterAnswer(c: Client, token: Token, tagged: bool): Client
    requires c.phase.Putting?
  {
    Client(Some(c.phase.put.body), if tagged then Some(token) else None, Idle)
  }

  function AfterReset(c: Client): Client {
    c.(cache := None, token := None)
  }

  function Apply(s: System, a: Action): System
    requires Enabled(s, a)
  {
    match a
    case GetObject(who) => Move(s, who, s.clients[who].(phase := GotObject(s.server.stored)))
    case ReceiveObject(who, tagged) => Move(s, who, AfterObject(s.clients[who], tagged))
    case GetGeneration(who) => Move(s, who, s.clients[who].(phase := GotGeneration(s.server.Current())))
    case ReceiveGeneration(who) => Move(s, who, AfterGeneration(s.clients[who]))
    case GetBody(who) => Move(s, who, s.clients[who].(phase := GotBody(s.server.stored.doc)))
    case ReceiveBody(who) => Move(s, who, AfterBody(s.clients[who]))
    case BeginPut(who, update) =>
      var c := s.clients[who];
      var put := NewPut(s, who, c, update);
      Move(s, who, c.(phase := Putting(put))).(puts := s.puts + {put}, nextId := s.nextId + 1)
    case Lands(put, token) =>
      s.(server := Landed(s.server, put, token), responses := s.responses + {Response(put, token)})
    case Answered(who, response, tagged) =>
      Move(s, who, AfterAnswer(s.clients[who], response.token, tagged))
    case Raises(who) => Move(s, who, s.clients[who].(phase := Idle))
    case Reset(who) => Move(s, who, AfterReset(s.clients[who]))
    case Restart(who) => Move(s, who, FRESH)
  }

  predicate Legal(s: System, run: seq<Action>)
    decreases |run|
  {
    run == [] || (Enabled(s, run[0]) && Legal(Apply(s, run[0]), run[1..]))
  }

  function Final(s: System, run: seq<Action>): System
    requires Legal(s, run)
    decreases |run|
  {
    if run == [] then s else Final(Apply(s, run[0]), run[1..])
  }

  /** Any object at the start, no instance at work. */
  predicate Init(s: System) {
    && (forall i :: i in s.clients ==> s.clients[i] == FRESH)
    && s.puts == {} && s.responses == {} && s.server.log == []
    && s.server.issued == (if s.server.stored.Present? then map[s.server.stored.token := s.server.stored.doc] else map[])
  }

  // ----- the invariant -----

  /** If the token is the current one, the document is the stored one, and this stays so whatever lands. */
  predicate Sound(s: System, token: Option<Token>, doc: Doc) {
    match token
    case None => s.server.stored.Absent? ==> doc == map[]
    case Some(t) =>
      && t in s.server.issued
      && (s.server.issued[t] == doc || (s.backend.Gcs? && s.server.Current() != Some(t)))
  }

  predicate ClientInv(s: System, c: Client) {
    && (c.cache.Some? ==> Sound(s, c.token, c.cache.value))
    && match c.phase
       case GotObject(stored) => stored.Present? ==> stored.token in s.server.issued && s.server.issued[stored.token] == stored.doc
                                                     && s.server.stored.Present?
       case GotGeneration(generation) =>
         c.cache.None? && s.backend.Gcs? && (generation.Some? ==> generation.value in s.server.issued && s.server.stored.Present?)
       case AwaitBody =>
         s.backend.Gcs? && s.server.stored.Present? && (c.token.Some? ==> c.token.value in s.server.issued)
       case GotBody(doc) => s.server.stored.Present? && Sound(s, c.token, doc)
       case _ => true
  }

  predicate PutInv(s: System, put: Put) {
    put.body == Updated(put.base, put.update) && Sound(s, put.condition, put.base)
  }

  predicate ServerInv(server: Server) {
    server.stored.Present? ==> server.stored.token in server.issued && server.issued[server.stored.token] == server.stored.doc
  }

  predicate Inv(start: Doc, s: System) {
    && ServerInv(s.server)
    && s.server.Content() == Replay(start, s.server.log)
    && (forall i :: i in s.clients ==> ClientInv(s, s.clients[i]))
    && (forall p :: p in s.puts ==> PutInv(s, p))
    && (forall r :: r in s.responses ==> s.server.stored.Present? && r.token in s.server.issued && s.server.issued[r.token] == r.put.body)
  }

  /** Landing never turns a sound pair unsound: a token comes back only for the document it was issued for. */
  lemma {:induction false} SoundSurvivesLanding(s: System, put: Put, next: Token, token: Option<Token>, doc: Doc)
    requires ServerInv(s.server) && Sound(s, token, doc) && MayIssue(s.backend, s.server, put.body, next)
    ensures Sound(s.(server := Landed(s.server, put, next)), token, doc)
  {
  }

  /** A put is accepted only on the document it was computed from, so landing it is applying its update. */
  lemma {:induction false} LandingAppliesUpdate(s: System, put: Put, token: Token)
    requires ServerInv(s.server) && PutInv(s, put) && Accepts(s.server, put)
    ensures Landed(s.server, put, token).Content() == Updated(s.server.Content(), put.update)
  {
  }

  lemma {:induction false} LandsKeepsInv(start: Doc, s: System, put: Put, token: Token)
    requires Inv(start, s) && Enabled(s, Lands(put, token))
    ensures Inv(start, Apply(s, Lands(put, token)))
  {
    var t := Apply(s, Lands(put, token));
    assert PutInv(s, put);
    LandingAppliesUpdate(s, put, token);
    ReplayOneMore(start, s.server.log, put.update);
    forall i | i in t.clients
      ensures ClientInv(t, t.clients[i])
    {
      var c := s.clients[i];
      assert ClientInv(s, c);
      if c.cache.Some? {
        SoundSurvivesLanding(s, put, token, c.token, c.cache.value);
      }
      if c.phase.GotBody? {
        SoundSurvivesLanding(s, put, token, c.token, c.phase.doc);
      }
    }
    forall p | p in t.puts
      ensures PutInv(t, p)
    {
      assert PutInv(s, p);
      SoundSurvivesLanding(s, put, token, p.condition, p.base);
    }
  }

  lemma {:induction false} MoveKeepsInv(start: Doc, s: System, who: Instance, c: Client)
    requires Inv(start, s) && ClientInv(s, c)
    ensures Inv(start, Move(s, who, c))
  {
    var t := Move(s, who, c);
    forall i | i in t.clients
      ensures ClientInv(t, t.clients[i])
    {
      assert i != who ==> ClientInv(s, s.clients[i]);
    }
    forall p | p in t.puts
      ensures PutInv(t, p)
    {
      assert PutInv(s, p);
    }
  }

  lemma {:induction false} BeginPutKeepsInv(start: Doc, s: System, who: Instance, update: Update)
    requires Inv(start, s) && Enabled(s, BeginPut(who, update))
    ensures Inv(start, Apply(s, BeginPut(who, update)))
  {
    var t := Apply(s, BeginPut(who, update));
    var c := s.clients[who];
    assert ClientInv(s, c);
    forall i | i in t.clients
      ensures ClientInv(t, t.clients[i])
    {
      assert i in s.clients ==> ClientInv(s, s.clients[i]);
    }
    forall p | p in t.puts
      ensures PutInv(t, p)
    {
      assert p in s.puts ==> PutInv(s, p);
    }
  }

  /** Steps that only move one instance. */
  lemma {:induction false} LocalStepKeepsInv(start: Doc, s: System, a: Action)
    requires Inv(start, s) && Enabled(s, a) && !a.Lands? && !a.BeginPut?
    ensures Inv(start, Apply(s, a))
  {
    var c := s.clients[a.who];
    assert ClientInv(s, c);
    var next := Apply(s, a).clients[a.who];
    MoveKeepsInv(start, s, a.who, next);
    assert Apply(s, a) == Move(s, a.who, next);
  }

  lemma {:induction false} StepKeepsInv(start: Doc, s: System, a: Action)
    requires Inv(start, s) && Enabled(s, a)
    ensures Inv(start, Apply(s, a))
  {
    match a
    case Lands(put, token) => LandsKeepsInv(start, s, put, token);
    case BeginPut(who, update) => BeginPutKeepsInv(start, s, who, update);
    case _ => LocalStepKeepsInv(start, s, a);
  }

  lemma {:induction false} RunKeepsInv(start: Doc, s: System, run: seq<Action>)
    requires Inv(start, s) && Legal(s, run)
    ensures Inv(start, Final(s, run))
    decreases |run|
  {
    if run != [] {
      StepKeepsInv(start, s, run[0]);
      RunKeepsInv(start, Apply(s, run[0]), run[1..]);
    }
  }

  /**
   No lost update: in every run on either backend the stored document is the initial one with the landed updates
   applied in landing order, and an instance whose cached token is the current one has the stored document cached.
   */
  lemma {:induction false} NoLostUpdate(s: System, run: seq<Action>)
    requires Init(s) && Legal(s, run)
    ensures var e := Final(s, run);
            && e.server.Content() == Replay(s.server.Content(), e.server.log)
            && forall i :: i in e.clients && e.clients[i].cache.Some? && e.clients[i].token == e.server.Current() ==>
                 e.clients[i].cache.value == e.server.Content()
  {
    RunKeepsInv(s.server.Content(), s, run);
    var e := Final(s, run);
    forall i | i in e.clients && e.clients[i].cache.Some? && e.clients[i].token == e.server.Current()
      ensures e.clients[i].cache.value == e.server.Content()
    {
      assert ClientInv(e, e.clients[i]);
    }
  }

  // ----- the store object -----

  /**
   The two stores keep the same two fields and differ only in how they load. A method is the code between two
   suspension points; `Reset` may run at any of them.
   */
  class ObjectCheckpointStore {
    const who: Instance
    var cache: Option<Doc>
    var token: Option<Token>
    var phase: Phase

    constructor (who: Instance)
      ensures this.who == who && View() == FRESH
    {
      this.who := who;
      cache, token, phase := None, None, Idle;
    }

    function View(): Client
      reads this
    {
      Client(cache, token, phase)
    }

    method ForgetCache()
      modifies this
      ensures View() == AfterReset(old(View()))
    {
      cache, token := None, None;
    }

    method ObjectArrived(tagged: bool)
      requires phase.GotObject?
      modifies this
      ensures View() == AfterObject(old(View()), tagged)
    {
      var stored := phase.stored;
      if stored.Absent? {
        cache, token := Some(map[]), None;
      } else {
        cache := Some(stored.doc);
        token := if tagged then Some(stored.token) else None;
      }
      phase := Idle;
    }

    /** The result says whether the body must still be fetched. */
    method GenerationArrived() returns (fetchBody: bool)
      requires phase.GotGeneration?
      modifies this
      ensures fetchBody <==> phase.AwaitBody?
      ensures View() == AfterGeneration(old(View()))
    {
      fetchBody := phase.generation.Some?;
      if fetchBody {
        token, phase := phase.generation, AwaitBody;
      } else {
        cache, token, phase := Some(map[]), None, Idle;
      }
    }

    method BodyArrived()
      requires phase.GotBody?
      modifies this
      ensures View() == AfterBody(old(View()))
    {
      cache, phase := Some(phase.doc), Idle;
    }

    method PutAnswered(answer: Token, tagged: bool)
      requires phase.Putting?
      modifies this
      ensures View() == AfterAnswer(old(View()), answer, tagged)
    {
      cache := Some(phase.put.body);
      token := if tagged then Some(answer) else None;
      phase := Idle;
    }
  }

  /** A commit writes the cached document with the items merged; it lands soundly whenever what is cached is sound. */
  method BeginCommit(who: Instance, cache: Doc, token: Option<Token>, items: Doc, id: nat) returns (put: Put)
    ensures put.who == who && put.id == id && put.update == Merge(items) && put.condition == token
    ensures forall key :: key in put.body <==> key in cache || key in items
    ensures forall key :: key in put.body ==> put.body[key] == if key in items then items[key] else cache[key]
    ensures forall s :: Sound(s, token, cache) ==> PutInv(s, put)
  {
    var newCache := cache + items;
    put := Put(who, id, token, Merge(items), cache, newCache);
  }

  /** Deleting a missing key issues no upload; otherwise the document without the key is written under the cached token. */
  method BeginDelete(who: Instance, cache: Doc, token: Option<Token>, key: string, id: nat) returns (put: Option<Put>)
    ensures put.None? <==> key !in cache
    ensures put.Some? ==>
              && put.value.who == who && put.value.id == id && put.value.update == Remove(key) && put.value.condition == token
              && put.value.body == cache - {key}
              && forall s :: Sound(s, token, cache) ==> PutInv(s, put.value)
  {
    if key !in cache {
      return None;
    }
    var newCache := map k | k in cache && k != key :: cache[k];
    assert newCache == cache - {key};
    put := Some(Put(who, id, token, Remove(key), cache, newCache));
  }
}
