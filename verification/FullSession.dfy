/** One client from enrolment to an HSM key, step by step: the runs the theorems speak of exist, and so does the one
    that loses the key to redelivery. */
module FullSession {
  import opened Wrappers
  import opened Protocol
  import opened DeviceState
  import opened Sessions
  import opened Operations
  import opened Worker
  import opened StateChains
  import opened Responses
  import opened Delivery
  import opened Envelope
  import opened EndToEnd
  import opened Provenance
  import opened Witnesses
  import opened Redelivery

  // === One exchange of an idle client with worker 0, all of it at time 0 ===

  /** What worker 0 holds, and which session ids are spoken for. */
  ghost predicate FleetAt(w: World, cache: CacheMap, born: set<SessionId>) {
    && Fleet.WorkerOf(Fleet.Run(w.fleetSteps), 0) == Fleet.WorkerState(cache, 0)
    && forall id :: id !in born ==> Fleet.LifeOf(Fleet.Run(w.fleetSteps).history, id).Unborn?
  }

  predicate AllSaved(w: World) {
    forall k :: 0 <= k < |w.bff.service.saves| ==> k in w.executed
  }

  /** The client has nothing under way and its token is in the store. */
  predicate Idle(w: World, token: Jws<StateRecord>) {
    && w.bff.service.pending == map[] && AllSaved(w)
    && "c" in w.store && w.store["c"] == token && "c" in w.accounts
  }

  predicate Asked(w: World, id: string, request: HsmWorkerRequest) {
    && id in w.bff.service.pending && w.bff.service.pending.Keys == {id}
    && w.bff.service.pending[id].stateKey == "c" && w.bff.service.pending[id].ttlSeconds == DEFAULT_TTL_SECONDS
    && AllSaved(w)
    && id in w.requests && w.requests[id] == request
    && "c" in w.store && w.store["c"] == request.stateJws && "c" in w.accounts
  }

  lemma UnknownIsFresh(w: World, id: string)
    requires Traced(w) && id !in w.requests
    ensures Fresh(w.bff, id)
  {
    forall n | 0 <= n < |w.bff.calls| ensures w.bff.calls[n].response.requestId != id {
      assert w.handled[w.arrivals[n]].requestId in w.requests;
    }
    forall i | 0 <= i < |w.bff.registrations| ensures w.bff.registrations[i].requestId != id {
      assert !IsRegistered(w.bff.registrations, id);
    }
  }

  lemma Ask(responseTtl: nat, steps: seq<WorldStep>, id: string, jws: Jws<OuterRequest>, token: Jws<StateRecord>)
    returns (steps': seq<WorldStep>)
    requires var w := WorldAfter(responseTtl, steps); Idle(w, token) && id !in w.requests
    ensures var w, w' := WorldAfter(responseTtl, steps), WorldAfter(responseTtl, steps');
      && Asked(w', id, HsmWorkerRequest(id, token, jws, "t"))
      && w'.fleetSteps == w.fleetSteps && w'.requests.Keys == w.requests.Keys + {id}
  {
    var w, send := WorldAfter(responseTtl, steps), Send("c", id, jws, "t");
    RunsAreTraced(responseTtl, steps);
    UnknownIsFresh(w, id);
    WorldGrows(responseTtl, steps, send);
    steps' := steps + [send];
  }

  /** All times are 0, and the session id drawn is unused. */
  predicate Timely(r: Replies, born: set<SessionId>) {
    r.readAt == r.applyAt == r.ttlAt == 0 && r.ports.freshId !in born
  }

  lemma HandledFleet(w: World, w': World, cache: CacheMap, born: set<SessionId>, id: string, r: Replies)
    requires FleetAt(w, cache, born) && Timely(r, born) && id in w.requests
    requires w'.fleetSteps == w.fleetSteps + [Fleet.Handle(0, CFG, w.requests[id], r)]
    ensures FleetAt(w', Process(CFG, cache, w.requests[id], r).cache, born + {r.ports.freshId})
  {
    var request, history := w.requests[id], Fleet.Run(w.fleetSteps).history;
    var e := Fleet.EventOf(0, r, Process(CFG, cache, request, r));
    RunGrows(w.fleetSteps, Fleet.Handle(0, CFG, request, r));
    Fleet.EventFacts(CFG, 0, cache, request, r);
    forall x | x !in born + {r.ports.freshId} ensures Fleet.LifeOf(history + [e], x).Unborn? {
      Fleet.LifeGrows(history, e, x);
    }
  }

  lemma Answer(responseTtl: nat, steps: seq<WorldStep>, cache: CacheMap, born: set<SessionId>, id: string,
               request: HsmWorkerRequest, r: Replies) returns (steps': seq<WorldStep>)
    requires var w := WorldAfter(responseTtl, steps);
      Asked(w, id, request) && request.requestId == id && FleetAt(w, cache, born) && Timely(r, born)
    ensures var w, w' := WorldAfter(responseTtl, steps), WorldAfter(responseTtl, steps');
      && Asked(w', id, request) && w'.requests == w.requests
      && w'.handled == w.handled + [HandlingOf(cache, CFG, request, r)]
      && FleetAt(w', Process(CFG, cache, request, r).cache, born + {r.ports.freshId})
  {
    var work := Work(0, CFG, id, r);
    WorldGrows(responseTtl, steps, work);
    steps' := steps + [work];
    HandledFleet(WorldAfter(responseTtl, steps), WorldAfter(responseTtl, steps'), cache, born, id, r);
  }

  function TokenAfter(token: Jws<StateRecord>, reply: HsmWorkerResponse): Jws<StateRecord> {
    match reply.stateJws
    case Some(newer) => newer
    case None => token
  }

  /** The answer is taken up: nothing is pending, and its state, if any, is on its way to the store. */
  ghost predicate TakenUpFrom(w: World, w': World, more: seq<Save>) {
    && w'.bff.service.pending == map[] && w'.executed == w.executed && w'.store == w.store && "c" in w'.accounts
    && w'.fleetSteps == w.fleetSteps && w'.requests == w.requests
    && w'.bff.service.saves == w.bff.service.saves + more
  }

  lemma TakesUp(w: World, k: nat, id: string, request: HsmWorkerRequest)
    requires Sound(w) && Asked(w, id, request)
    requires k < |w.handled| && w.handled[k].requestId == id && w.handled[k].reply.Some?
    ensures TakenUpFrom(w, Advanced(w, Accept(k)), SaveFor(w.bff.service.pending[id], w.handled[k]))
    ensures forall n :: n in w.executed ==> n < |w.bff.service.saves|
  {
    AcceptIs(w, k);
  }

  /** The last save is the only one that has not run. */
  predicate SavesLast(w: World, save: Save) {
    var n := |w.bff.service.saves| - 1;
    && w.bff.service.saves != [] && w.bff.service.saves[n] == save && save.stateKey == "c"
    && n !in w.executed && (forall k :: 0 <= k < n ==> k in w.executed)
    && w.bff.service.pending == map[] && "c" in w.accounts
  }

  lemma SaveRuns(responseTtl: nat, steps: seq<WorldStep>, save: Save) returns (steps': seq<WorldStep>)
    requires SavesLast(WorldAfter(responseTtl, steps), save)
    ensures var w, w' := WorldAfter(responseTtl, steps), WorldAfter(responseTtl, steps');
      Idle(w', save.stateJws) && w'.fleetSteps == w.fleetSteps && w'.requests == w.requests
  {
    var run := RunSave(|WorldAfter(responseTtl, steps).bff.service.saves| - 1);
    WorldGrows(responseTtl, steps, run);
    steps' := steps + [run];
  }

  /** What remains to be done once the answer is taken up. */
  ghost predicate Settling(w: World, w': World, id: string, token: Jws<StateRecord>, reply: HsmWorkerResponse) {
    && w'.fleetSteps == w.fleetSteps && w'.requests == w.requests
    && match reply.stateJws
       case None => Idle(w', token)
       case Some(newer) => SavesLast(w', Save(id, "c", newer, DEFAULT_TTL_SECONDS))
  }

  lemma Settles(w: World, w': World, id: string, request: HsmWorkerRequest, h: Handling)
    requires Asked(w, id, request) && h.requestId == id && h.reply.Some?
    requires forall n :: n in w.executed ==> n < |w.bff.service.saves|
    requires TakenUpFrom(w, w', SaveFor(w.bff.service.pending[id], h))
    ensures Settling(w, w', id, request.stateJws, h.reply.value)
  {
  }

  /** The BFF takes up the last answer. */
  lemma TakesUpLast(responseTtl: nat, steps: seq<WorldStep>, id: string, request: HsmWorkerRequest)
    returns (steps': seq<WorldStep>)
    requires LastAnswers(WorldAfter(responseTtl, steps), id, request)
    ensures var w := WorldAfter(responseTtl, steps);
            Settling(w, WorldAfter(responseTtl, steps'), id, request.stateJws, w.handled[|w.handled| - 1].reply.value)
  {
    var w, k := WorldAfter(responseTtl, steps), |WorldAfter(responseTtl, steps).handled| - 1;
    RunsAreSound(responseTtl, steps);
    TakesUp(w, k, id, request);
    Settles(w, Advanced(w, Accept(k)), id, request, w.handled[k]);
    WorldGrows(responseTtl, steps, Accept(k));
    steps' := steps + [Accept(k)];
  }

  predicate LastAnswers(w: World, id: string, request: HsmWorkerRequest) {
    && Asked(w, id, request) && w.handled != []
    && var h := w.handled[|w.handled| - 1]; h.requestId == id && h.reply.Some? && h.reply.value.requestId == id
  }

  /** And the save it spawns, if any, runs. */
  lemma TakeUp(responseTtl: nat, steps: seq<WorldStep>, id: string, request: HsmWorkerRequest)
    returns (steps': seq<WorldStep>)
    requires LastAnswers(WorldAfter(responseTtl, steps), id, request)
    ensures var w, w' := WorldAfter(responseTtl, steps), WorldAfter(responseTtl, steps');
      && Idle(w', TokenAfter(request.stateJws, w.handled[|w.handled| - 1].reply.value))
      && w'.fleetSteps == w.fleetSteps && w'.requests == w.requests
  {
    var w := WorldAfter(responseTtl, steps);
    steps' := TakesUpLast(responseTtl, steps, id, request);
    match w.handled[|w.handled| - 1].reply.value.stateJws
    case None =>
    case Some(newer) =>
      steps' := SaveRuns(responseTtl, steps', Save(id, "c", newer, DEFAULT_TTL_SECONDS));
  }

  /** The request is handled with success and leaves this cache and this token. */
  predicate Yields(cache: CacheMap, request: HsmWorkerRequest, r: Replies, cache': CacheMap, token': Jws<StateRecord>) {
    var p := Process(CFG, cache, request, r);
    && p.result.Ok? && r.send && p.result.value.requestId == request.requestId
    && p.cache == cache' && token' == TokenAfter(request.stateJws, p.result.value)
  }

  lemma Exchange(responseTtl: nat, steps: seq<WorldStep>, cache: CacheMap, born: set<SessionId>,
                 request: HsmWorkerRequest, r: Replies, cache': CacheMap, token': Jws<StateRecord>)
    returns (steps': seq<WorldStep>)
    requires var w := WorldAfter(responseTtl, steps);
      && Idle(w, request.stateJws) && FleetAt(w, cache, born) && Timely(r, born)
      && request.responseTopic == "t" && request.requestId !in w.requests
    requires Yields(cache, request, r, cache', token')
    ensures var w, w' := WorldAfter(responseTtl, steps), WorldAfter(responseTtl, steps');
      && Idle(w', token') && FleetAt(w', cache', born + {r.ports.freshId})
      && w'.requests.Keys == w.requests.Keys + {request.requestId}
  {
    var asked := Ask(responseTtl, steps, request.requestId, request.outerRequestJws, request.stateJws);
    var answered := Answer(responseTtl, asked, cache, born, request.requestId, request, r);
    steps' := TakeUp(responseTtl, answered, request.requestId, request);
  }

  // === Register, log in, ask for a key ===

  /** Every library call succeeds; `unused` is the session id drawn. */
  function Good(unused: SessionId): Replies {
    var r := Calls(true, true);
    var key := HsmKey([], EcPublicJwk("EC", "P-256", "p", "q", "k2"), "", "");
    r.(ports := r.ports.(freshId := unused, generateKey := _ => Some(key)))
  }

  lemma FinishesWell(cache: CacheMap, ctx: OperationContext, response: ResponseContext, outcome: OpOutcome, r: Replies)
    requires (exists unused :: r == Good(unused)) && outcome.Ok?
    requires Transitioned(cache, outcome.value.sessionId, outcome.value.sessionTransition, 0).Ok?
    requires response.requestType.EncryptOption().Session? ==> response.sessionKey.Some?
    ensures var p := Finished(CFG, cache, ctx, response, outcome, r);
      && p.result.Ok? && p.result.value.requestId == response.requestId
      && p.cache == Transitioned(cache, outcome.value.sessionId, outcome.value.sessionTransition, 0).value
      && p.result.value.stateJws ==
           (match outcome.value.state
            case Some(s) => Some(Jws(Some("s"), ServerSigningKey, Some(s)))
            case None => None)
  {
  }

  /** A token the client can log in with. */
  predicate MayLogIn(token: Jws<StateRecord>) {
    && token.payload.Some? && Presents(token, token.payload.value)
    && GetPasswordFileEntry(token.payload.value, "d").Some?
    && Wellformed(token.payload.value) && FindHsmKey(token.payload.value, "k2").None?
  }

  /** A request of the client under this id, and replies at time 0 that draw this session id. */
  predicate Asks(request: HsmWorkerRequest, id: string, token: Jws<StateRecord>, r: Replies, unused: SessionId) {
    && request.requestId == id && request.stateJws == token && request.responseTopic == "t"
    && r.readAt == r.applyAt == r.ttlAt == 0 && r.ports.freshId == unused
  }

  lemma Registers(token: Jws<StateRecord>) returns (request: HsmWorkerRequest, r: Replies, token': Jws<StateRecord>)
    requires token == Token()
    ensures Asks(request, "r1", token, r, "f1") && MayLogIn(token') && Yields(map[], request, r, map[], token')
  {
    TokenPresents();
    var s := token.payload.value;
    r, request := Good("f1"), RequestFor(RegisterFinish, Some("code"), None, token, "r1");
    Dispatches(map[], RegisterFinish, Some("code"), None, token, s, "r1", r);
    var ctx := Process(CFG, map[], request, r).input.value;
    SucceedsExactly(ctx, r.ports);
    TransitionOf(ctx, r.ports);
    FinishesWell(map[], ctx, ContextFor(ctx), Dispatched(ctx, r.ports), r);
    EffectOf(ctx, r.ports);
    var s' := StateAfter(ctx, r.ports);
    RegisteredMayLogIn(s, s', NewEntry(RegistrationOf(ctx, r.ports).value, r.ports));
    token' := Jws(Some("s"), ServerSigningKey, Some(s'));
  }

  lemma RegisteredMayLogIn(s: StateRecord, s': StateRecord, entry: PasswordFileEntry)
    requires s == Token().payload.value && WithPasswordFile(s, "d", entry, Some("code")) == Ok(s')
    ensures MayLogIn(Jws(Some("s"), ServerSigningKey, Some(s')))
  {
    TokenPresents();
    SetPasswordFileEvolves(s, "d", entry, Some("code"));
    EvolvedEntry(s, s', "d");
    assert HsmKids(s.hsmKeys) == ["k"];
  }

  const PENDING: CacheMap := map["sid" := CacheEntry(PendingAuth(PendingAuthData([], None)), 0)]
  const ACTIVE: CacheMap := map["sid" := CacheEntry(Active(SessionData([], None, None, false)), 0)]

  lemma StartsLogin(token: Jws<StateRecord>) returns (request: HsmWorkerRequest, r: Replies)
    requires MayLogIn(token)
    ensures Asks(request, "r2", token, r, "sid") && Yields(map[], request, r, PENDING, token)
  {
    var s := token.payload.value;
    r, request := Good("sid"), RequestFor(AuthenticateStart, None, None, token, "r2");
    Dispatches(map[], AuthenticateStart, None, None, token, s, "r2", r);
    var ctx := Process(CFG, map[], request, r).input.value;
    SucceedsExactly(ctx, r.ports);
    TransitionOf(ctx, r.ports);
    EffectOf(ctx, r.ports);
    FinishesWell(map[], ctx, ContextFor(ctx), Dispatched(ctx, r.ports), r);
  }

  lemma FinishesLogin(token: Jws<StateRecord>) returns (request: HsmWorkerRequest, r: Replies)
    requires MayLogIn(token)
    ensures Asks(request, "r3", token, r, "f3") && Yields(PENDING, request, r, ACTIVE, token)
  {
    var s := token.payload.value;
    r, request := Good("f3"), RequestFor(AuthenticateFinish, None, Some("sid"), token, "r3");
    Dispatches(PENDING, AuthenticateFinish, None, Some("sid"), token, s, "r3", r);
    var ctx := Process(CFG, PENDING, request, r).input.value;
    SucceedsExactly(ctx, r.ports);
    TransitionOf(ctx, r.ports);
    EffectOf(ctx, r.ports);
    FinishesWell(PENDING, ctx, ContextFor(ctx), Dispatched(ctx, r.ports), r);
  }

  lemma EnrolledIsIdle(responseTtl: nat) returns (steps: seq<WorldStep>)
    ensures var w := WorldAfter(responseTtl, steps);
      Idle(w, Token()) && FleetAt(w, map[], {}) && w.requests == map[]
  {
    steps := Enrolled(responseTtl);
  }

  lemma Registering(responseTtl: nat, steps: seq<WorldStep>, first: Jws<StateRecord>)
    returns (steps': seq<WorldStep>, token: Jws<StateRecord>)
    requires var w := WorldAfter(responseTtl, steps);
      first == Token() && Idle(w, first) && FleetAt(w, map[], {}) && w.requests == map[]
    ensures var w' := WorldAfter(responseTtl, steps');
      Idle(w', token) && MayLogIn(token) && FleetAt(w', map[], {} + {"f1"}) && w'.requests.Keys == {"r1"}
  {
    var request, r;
    request, r, token := Registers(first);
    steps' := Exchange(responseTtl, steps, map[], {}, request, r, map[], token);
  }

  lemma Starting(responseTtl: nat, steps: seq<WorldStep>, born: set<SessionId>, token: Jws<StateRecord>)
    returns (steps': seq<WorldStep>)
    requires var w := WorldAfter(responseTtl, steps);
      && Idle(w, token) && MayLogIn(token) && FleetAt(w, map[], born) && "sid" !in born && "r2" !in w.requests
    ensures var w, w' := WorldAfter(responseTtl, steps), WorldAfter(responseTtl, steps');
      Idle(w', token) && FleetAt(w', PENDING, born + {"sid"}) && w'.requests.Keys == w.requests.Keys + {"r2"}
  {
    var request, r := StartsLogin(token);
    steps' := Exchange(responseTtl, steps, map[], born, request, r, PENDING, token);
  }

  lemma Finishing(responseTtl: nat, steps: seq<WorldStep>, cache: CacheMap, born: set<SessionId>,
                  token: Jws<StateRecord>) returns (steps': seq<WorldStep>)
    requires cache == PENDING && MayLogIn(token)
    requires var w := WorldAfter(responseTtl, steps);
      Idle(w, token) && FleetAt(w, cache, born) && "f3" !in born && "r3" !in w.requests
    ensures var w, w' := WorldAfter(responseTtl, steps), WorldAfter(responseTtl, steps');
      Idle(w', token) && FleetAt(w', ACTIVE, born + {"f3"}) && w'.requests.Keys == w.requests.Keys + {"r3"}
  {
    var request, r := FinishesLogin(token);
    steps' := Exchange(responseTtl, steps, cache, born, request, r, ACTIVE, token);
  }

  /** The client has registered and logged in: worker 0 holds its session. */
  lemma LoggedIn(responseTtl: nat) returns (steps: seq<WorldStep>, token: Jws<StateRecord>)
    ensures var w := WorldAfter(responseTtl, steps);
      && Idle(w, token) && MayLogIn(token) && FleetAt(w, ACTIVE, {"f1", "sid", "f3"}) && "r4" !in w.requests
  {
    steps := EnrolledIsIdle(responseTtl);
    steps, token := Registering(responseTtl, steps, Token());
    steps := Starting(responseTtl, steps, {} + {"f1"}, token);
    steps := Finishing(responseTtl, steps, PENDING, {} + {"f1"} + {"sid"}, token);
    assert {} + {"f1"} + {"sid"} + {"f3"} == {"f1", "sid", "f3"};
  }

  predicate Generates(cache: CacheMap, request: HsmWorkerRequest, r: Replies) {
    var p := Process(CFG, cache, request, r);
    && p.result.Ok? && p.input.Some? && p.input.value.innerRequest.requestType.HsmGenerateKey?
    && CmdOf(p.input.value, r.ports).AddKey?
  }

  lemma GeneratesKey(token: Jws<StateRecord>) returns (request: HsmWorkerRequest, r: Replies, r': Replies)
    requires MayLogIn(token)
    ensures Asks(request, "r4", token, r, "f4") && r'.ports.freshId == "f5" && Repeats(r, r') && r.send
    ensures Generates(ACTIVE, request, r)
  {
    var data := RequestData("", None, None, Some(P256), None);
    r, r' := Good("f4"), Good("f5");
    var jws := BuildSessionRequestJws(HsmGenerateKey, data, "sid", [], DEVICE).value;
    request := HsmWorkerRequest("r4", token, jws, "t");
    SessionRequestDecodes(CFG, ACTIVE, request, r, HsmGenerateKey, data, "sid", [], DEVICE);
    InputOfAdmitted(CFG, ACTIVE, request, r);
    ProcessShape(CFG, ACTIVE, request, r);
    var ctx := Process(CFG, ACTIVE, request, r).input.value;
    SucceedsExactly(ctx, r.ports);
    TransitionOf(ctx, r.ports);
    FinishesWell(ACTIVE, ctx, ContextFor(ctx), Dispatched(ctx, r.ports), r);
  }

  /** A pending request for a key that worker 0 can handle with success, and again. */
  predicate AboutToGenerate(w: World, r: Replies, r': Replies) {
    && AboutToSucceed(w, 0, CFG, "r4", r) && w.bff.service.pending["r4"].stateKey == "c"
    && HandlingOf(CacheOf(w, 0), CFG, w.requests["r4"], r).cmd.AddKey?
    && Repeats(r, r') && Fleet.LifeOf(Fleet.Run(w.fleetSteps).history, r'.ports.freshId).Unborn?
    && "c" in w.store && MayLogIn(w.store["c"])
  }

  lemma AskedToGenerate(w: World, cache: CacheMap, born: set<SessionId>, token: Jws<StateRecord>,
                        request: HsmWorkerRequest, r: Replies, r': Replies)
    requires Asked(w, "r4", request) && FleetAt(w, cache, born) && MayLogIn(token)
    requires Asks(request, "r4", token, r, "f4") && Repeats(r, r') && r.send
    requires "f4" !in born && r'.ports.freshId !in born
    requires Generates(cache, request, r)
    ensures AboutToGenerate(w, r, r')
  {
    assert CacheOf(w, 0) == cache && w.requests["r4"] == request;
  }

  lemma AsksToGenerate(responseTtl: nat, steps: seq<WorldStep>, cache: CacheMap, born: set<SessionId>,
                       token: Jws<StateRecord>, request: HsmWorkerRequest, r: Replies, r': Replies)
    returns (steps': seq<WorldStep>)
    requires var w := WorldAfter(responseTtl, steps); Idle(w, token) && FleetAt(w, cache, born) && "r4" !in w.requests
    requires MayLogIn(token) && Asks(request, "r4", token, r, "f4") && Repeats(r, r') && r.send
    requires "f4" !in born && r'.ports.freshId !in born && Generates(cache, request, r)
    ensures AboutToGenerate(WorldAfter(responseTtl, steps'), r, r')
  {
    steps' := Ask(responseTtl, steps, "r4", request.outerRequestJws, token);
    AskedToGenerate(WorldAfter(responseTtl, steps'), cache, born, token, request, r, r');
  }

  lemma GetsToGenerate(responseTtl: nat) returns (steps: seq<WorldStep>, r: Replies, r': Replies)
    ensures AboutToGenerate(WorldAfter(responseTtl, steps), r, r')
  {
    var loggedIn, token := LoggedIn(responseTtl);
    var request;
    request, r, r' := GeneratesKey(token);
    steps := AsksToGenerate(responseTtl, loggedIn, ACTIVE, {"f1", "sid", "f3"}, token, request, r, r');
  }

  /** A run in which every library call works and a new HSM key is lost to redelivery: the client registers, logs
      in and asks for a key; the request is delivered twice, the refusal of the second handling arrives first and is
      taken up, and the answer with the key is parked, its state never saved. */
  lemma KeyLostToRedelivery(responseTtl: nat) returns (steps: seq<WorldStep>, n: nat)
    requires responseTtl > 0
    ensures var w := WorldAfter(responseTtl, steps);
      && SuccessThenRefusal(w, n, "r4") && w.handled[n].cmd.AddKey?
      && "c" in w.accounts && w.accounts["c"].log != [] && w.accounts["c"].log[|w.accounts["c"].log| - 1] == NoChange
      && w.accounts["c"].events != [] && w.accounts["c"].events[|w.accounts["c"].events| - 1] == n + 1
      && Seen(w.bff.service.cache, "r4", 0) == w.handled[n].reply
      && "c" in w.store && MayLogIn(w.store["c"])
  {
    var asked, r, r' := GetsToGenerate(responseTtl);
    n := |WorldAfter(responseTtl, asked).handled|;
    steps := RedeliveryLosesTheSuccess(responseTtl, asked, 0, CFG, "r4", r, r', 0);
  }
}
