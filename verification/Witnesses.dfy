/** Concrete requests and runs that show where a promise stops. */
module Witnesses {
  import opened Wrappers
  import opened Protocol
  import opened DeviceState
  import opened Sessions
  import opened Operations
  import opened Worker
  import opened StateInitService
  import opened StateChains
  import opened Channels
  import opened Responses
  import opened Delivery
  import opened Envelope
  import opened EndToEnd
  import opened Provenance

  const DEVICE_JWK: EcPublicJwk := EcPublicJwk("EC", "P-256", "x", "y", "d")
  const CFG: WorkerConfig := WorkerConfig(true, "s")
  const DEVICE: Signer := Signer(PairOf(DEVICE_JWK), "d", "n", true, true)

  /** Every PAKE call succeeds, or registration fails. */
  function Ports(registers: bool): PortReplies {
    PortReplies("session", "now",
                (_, _) => Ok([]),
                _ => if registers then Ok(RegistrationResult([], "")) else Err(PakeError.InvalidRequest),
                (_, _, _) => Ok(AuthenticationStart([], [])),
                (_, _, _) => Ok([]),
                _ => None, (_, _) => None, _ => true, true)
  }

  /** Every library call succeeds; the send may not. */
  function Calls(registers: bool, send: bool): Replies {
    Replies(0, 0, 0, Ports(registers), true, true, true, true, true, true, true, true, true, send)
  }

  function DataWith(code: Option<string>): RequestData {
    RequestData("", Some(PakeRequest(code, None, [])), None, None, None)
  }

  function RequestFor(op: OperationId, code: Option<string>, session: Option<SessionId>, token: Jws<StateRecord>,
                      id: string): HsmWorkerRequest
  {
    HsmWorkerRequest(id, token, BuildPakeRequestJws(op, DataWith(code), session, DEVICE).value, "t")
  }

  /** A state this device's requests are decoded with. */
  predicate Presents(token: Jws<StateRecord>, s: StateRecord) {
    && token.signedBy == ServerSigningKey && token.payload == Some(s)
    && FindDeviceKey(s, "d").Some? && PairOf(FindDeviceKey(s, "d").value.jwsPublicKey) == DEVICE.pair
  }

  /** Such a request is dispatched as it was built. */
  lemma Dispatches(cache: CacheMap, op: OperationId, code: Option<string>, session: Option<SessionId>,
                   token: Jws<StateRecord>, s: StateRecord, id: string, r: Replies)
    requires op.EncryptOption().Device? && Presents(token, s) && r.verifyState && r.verifyDevice && r.decrypt
    ensures var p := Process(CFG, cache, RequestFor(op, code, session, token, id), r);
      && p.input.Some?
      && var ctx := p.input.value;
         && ctx.state == s && ctx.deviceKid == "d" && ctx.sessionId == session && ctx.requestId == id
         && ctx.sessionState == Snapshot(cache, session, r.readAt)
         && ctx.innerRequest == InnerRequest(1, op, Some(DataWith(code)))
         && FindDeviceKey(ctx.state, ctx.deviceKid).Some?
         && p == Finished(CFG, cache, ctx, ContextFor(ctx), Dispatched(ctx, r.ports), r)
  {
    var request := RequestFor(op, code, session, token, id);
    PakeRequestDecodes(CFG, cache, request, r, op, DataWith(code), session, DEVICE);
    InputOfAdmitted(CFG, cache, request, r);
    ProcessShape(CFG, cache, request, r);
  }

  // === A commit that is never heard of ===

  const LOGIN_STATE: StateRecord :=
    StateRecord(1, [DeviceKeyEntry(DEVICE_JWK, None, [PasswordFileEntry([], "", "")], None)], [])

  lemma PositionOfDevice(keys: seq<DeviceKeyEntry>)
    requires |keys| == 1 && keys[0].Kid() == "d"
    ensures Position(DeviceKids(keys), "d") == Some(0)
  {
    assert DeviceKids(keys) == ["d"];
  }

  /** The send counts too: here every other call succeeds and the login is committed, but nothing goes out. */
  lemma UnsentCommit() returns (request: HsmWorkerRequest, r: Replies)
    ensures var p := Process(CFG, map[], request, r);
      && r.serialize && r.encrypt && r.signOuter && r.signState && !r.send
      && p.commit.Some? && p.cache != map[]
      && Reply(CFG, request, p, r).Ok? && ClientSeesSuccess(Reply(CFG, request, p, r).value)
      && SentFor(CFG, request, p, r) == None
  {
    var token := Jws(Some("s"), ServerSigningKey, Some(LOGIN_STATE));
    request, r := RequestFor(AuthenticateStart, None, None, token, "r"), Calls(true, false);
    PositionOfDevice(LOGIN_STATE.deviceKeys);
    Dispatches(map[], AuthenticateStart, None, None, token, LOGIN_STATE, "r", r);
    var ctx := Process(CFG, map[], request, r).input.value;
    SucceedsExactly(ctx, r.ports);
    TransitionOf(ctx, r.ports);
    CommittedHere(ctx, ContextFor(ctx), Dispatched(ctx, r.ports), r);
  }

  lemma CommittedHere(ctx: OperationContext, response: ResponseContext, outcome: OpOutcome, r: Replies)
    requires outcome.Ok? && outcome.value.sessionId.Some? && outcome.value.sessionTransition.Some?
    requires outcome.value.sessionTransition.value.CreatePendingAuth?
    requires response.requestType.EncryptOption().Device? && r == Calls(true, false)
    ensures var p := Finished(CFG, map[], ctx, response, outcome, r);
            p.commit.Some? && p.cache != map[] && p.result.Ok? && ClientSeesSuccess(p.result.value)
  {
    var id := outcome.value.sessionId.value;
    assert id in Finished(CFG, map[], ctx, response, outcome, r).cache;
  }

  // === A success that never reaches the store ===

  const ENROLMENT: StateInitRequest := StateInitRequest("i", DEVICE_JWK, None, "t", P256)
  const ENROLMENT_REPLIES: InitReplies :=
    InitReplies("code", _ => Some(HsmKey([], EcPublicJwk("EC", "P-256", "u", "v", "k"), "", "")), true, true,
                DEVICE_JWK,
                DEVICE_JWK, "opaque")

  function Token(): Jws<StateRecord> {
    Initialized(ENROLMENT, ENROLMENT_REPLIES).value.stateJws
  }

  function FinishRequest(): HsmWorkerRequest {
    RequestFor(RegisterFinish, Some("code"), None, Token(), "r")
  }

  lemma TokenPresents()
    ensures Token().payload.Some? && Presents(Token(), Token().payload.value)
    ensures FindDeviceKey(Token().payload.value, "d").value.devAuthorizationCode == Some("code")
    ensures GeneratedFor(ENROLMENT, ENROLMENT_REPLIES).value.Kid() != ""
  {
    InitialStateShape(ENROLMENT, ENROLMENT_REPLIES);
    PositionOfDevice(Token().payload.value.deviceKeys);
  }

  /** The same register-finish is handled with success, or with an error when the PAKE library fails. */
  lemma FinishHandled(cache: CacheMap, registers: bool)
    ensures var h := HandlingOf(cache, CFG, FinishRequest(), Calls(registers, true));
      && h.requestId == "r" && h.reply.Some? && h.reply.value.requestId == "r"
      && h.success == registers && h.reply.value.stateJws.Some? == registers
      && (registers ==> h.cmd.SetPin? && ClientSeesSuccess(h.reply.value))
      && (!registers ==> h.cmd == NoChange && ClientSeesError(h.reply.value))
    ensures Process(CFG, cache, FinishRequest(), Calls(registers, true)).commit.None?
  {
    var r := Calls(registers, true);
    TokenPresents();
    Dispatches(cache, RegisterFinish, Some("code"), None, Token(), Token().payload.value, "r", r);
    var ctx := Process(CFG, cache, FinishRequest(), r).input.value;
    SucceedsExactly(ctx, r.ports);
    if registers {
      TransitionOf(ctx, r.ports);
      EffectOf(ctx, r.ports);
    }
    FinishedHere(cache, ctx, ContextFor(ctx), Dispatched(ctx, r.ports), r);
    FailureAtomicity(CFG, cache, FinishRequest(), r);
  }

  lemma FinishedHere(cache: CacheMap, ctx: OperationContext, response: ResponseContext, outcome: OpOutcome, r: Replies)
    requires outcome.Ok? ==> outcome.value.sessionTransition.None?
    requires response.requestType.EncryptOption().Device? && (exists registers :: r == Calls(registers, true))
    ensures var p := Finished(CFG, cache, ctx, response, outcome, r);
      && p.commit.None? && p.result.Ok? == outcome.Ok?
      && (outcome.Ok? ==> p.result.value.stateJws.Some? == outcome.value.state.Some?)
      && (outcome.Err? ==> p.result.error == ProcessError(Inner(outcome.error), Some(response)))
      && (outcome.Err? ==>
            && BuildErrorResponse(CFG, "r", p.result.error, r).Ok?
            && BuildErrorResponse(CFG, "r", p.result.error, r).value.stateJws.None?
            && ClientSeesError(BuildErrorResponse(CFG, "r", p.result.error, r).value))
  {
  }

  /** The client is enrolled and has sent its register-finish. */
  predicate Waiting(w: World) {
    && w.requests == map["r" := FinishRequest()]
    && w.bff.service.pending == map["r" := PendingEntry("c", DEFAULT_TTL_SECONDS, 0)]
    && w.bff.service.saves == [] && w.bff.calls == [] && w.arrivals == []
    && w.store == map["c" := Token()]
    && w.accounts == map["c" := Account(Token().payload.value, [], [], Token().payload.value)]
  }

  lemma Enrolled(responseTtl: nat) returns (steps: seq<WorldStep>)
    ensures var w := WorldAfter(responseTtl, steps);
            var account := Account(Token().payload.value, [], [], Token().payload.value);
      w == Begin(responseTtl).(store := map["c" := Token()], accounts := map["c" := account])
  {
    TokenPresents();
    steps := [] + [Enrol("c", ENROLMENT, ENROLMENT_REPLIES)];
    WorldGrows(responseTtl, [], steps[0]);
  }

  lemma Prepared(responseTtl: nat) returns (steps: seq<WorldStep>)
    ensures var w := WorldAfter(responseTtl, steps);
      Waiting(w) && w.handled == [] && w.fleetSteps == [] && w.bff.responseTtl == responseTtl
  {
    var before := Enrolled(responseTtl);
    var send := Send("c", "r", FinishRequest().outerRequestJws, "t");
    WorldGrows(responseTtl, before, send);
    steps := before + [send];
  }

  lemma QuietHistory(e: Fleet.Event, id: SessionId)
    requires e.Handled? ==> e.commit.None?
    ensures Fleet.LifeOf([e], id).Unborn?
  {
    assert [e][..0] == [];
  }

  /** Handling the request once, on a worker nobody has used. */
  lemma HandleOnce(responseTtl: nat, steps: seq<WorldStep>, worker: Fleet.WorkerId, registers: bool)
    returns (steps': seq<WorldStep>)
    requires var w := WorldAfter(responseTtl, steps);
      && Waiting(w) && worker !in Fleet.Run(w.fleetSteps).workers
      && Fleet.LifeOf(Fleet.Run(w.fleetSteps).history, "session").Unborn?
    ensures var w, w' := WorldAfter(responseTtl, steps), WorldAfter(responseTtl, steps');
            var step := Fleet.Handle(worker, CFG, FinishRequest(), Calls(registers, true));
      && Waiting(w') && w'.bff == w.bff && w'.fleetSteps == w.fleetSteps + [step]
      && w'.handled == w.handled + [FinishHandling(registers)]
  {
    var work := Work(worker, CFG, "r", Calls(registers, true));
    WorldGrows(responseTtl, steps, work);
    steps' := steps + [work];
  }

  lemma OneHandled(responseTtl: nat) returns (steps: seq<WorldStep>)
    ensures var w := WorldAfter(responseTtl, steps);
      && Waiting(w) && w.bff.responseTtl == responseTtl && w.handled == [FinishHandling(true)]
      && 1 !in Fleet.Run(w.fleetSteps).workers && Fleet.LifeOf(Fleet.Run(w.fleetSteps).history, "session").Unborn?
  {
    var first := Prepared(responseTtl);
    steps := HandleOnce(responseTtl, first, 0, true);
    OneHandledFleet();
    var step := Fleet.Handle(0, CFG, FinishRequest(), Calls(true, true));
    assert [] + [step] == [step];
  }

  lemma OneHandledFleet()
    ensures var f := Fleet.Run([Fleet.Handle(0, CFG, FinishRequest(), Calls(true, true))]);
            1 !in f.workers && Fleet.LifeOf(f.history, "session").Unborn?
  {
    FinishHandled(map[], true);
    RunGrows([], Fleet.Handle(0, CFG, FinishRequest(), Calls(true, true)));
    var e := Fleet.EventOf(0, Calls(true, true), Process(CFG, map[], FinishRequest(), Calls(true, true)));
    assert [] + [Fleet.Handle(0, CFG, FinishRequest(), Calls(true, true))]
           == [Fleet.Handle(0, CFG, FinishRequest(), Calls(true, true))];
    assert Fleet.Run([Fleet.Handle(0, CFG, FinishRequest(), Calls(true, true))]).history == [e];
    QuietHistory(e, "session");
  }

  function FinishHandling(registers: bool): Handling {
    HandlingOf(map[], CFG, FinishRequest(), Calls(registers, true))
  }

  lemma BothHandled(responseTtl: nat) returns (steps: seq<WorldStep>)
    ensures var w := WorldAfter(responseTtl, steps);
      Waiting(w) && w.bff.responseTtl == responseTtl && w.handled == [FinishHandling(true), FinishHandling(false)]
  {
    var one := OneHandled(responseTtl);
    steps := HandleOnce(responseTtl, one, 1, false);
  }

  lemma BothAnswer(w: World)
    requires w.handled == [FinishHandling(true), FinishHandling(false)]
    ensures HandledTwice(w)
  {
    FinishHandled(map[], true);
    FinishHandled(map[], false);
  }

  /** A success that brings a state, and an error, in answer to one request. */
  predicate HandledTwice(w: World) {
    && |w.handled| == 2
    && (forall k :: 0 <= k < 2 ==>
          w.handled[k].requestId == "r" && w.handled[k].reply.Some? && w.handled[k].reply.value.requestId == "r")
    && w.handled[0].success && w.handled[0].cmd.SetPin? && w.handled[0].reply.value.stateJws.Some?
    && !w.handled[1].success && w.handled[1].cmd == NoChange && w.handled[1].reply.value.stateJws.None?
  }

  /** The BFF has answered the client with the error. */
  predicate ErrorTakenUp(w: World) {
    && w.bff.service.pending == map[] && w.bff.service.saves == [] && |w.bff.calls| == 1 && w.arrivals == [1]
    && w.store == map["c" := Token()]
    && w.accounts == map["c" := Account(Token().payload.value, [NoChange], [1], Token().payload.value)]
  }

  lemma TakesUpTheError(w: World)
    requires Waiting(w) && HandledTwice(w)
    ensures Possible(w, Accept(1)) && ErrorTakenUp(Advanced(w, Accept(1)))
    ensures HandledTwice(Advanced(w, Accept(1))) && Advanced(w, Accept(1)).bff.responseTtl == w.bff.responseTtl
  {
    var a := w.accounts["c"];
    assert a.log + [NoChange] == [NoChange] && a.events + [1] == [1];
  }

  lemma ParksTheSuccess(responseTtl: nat, steps: seq<WorldStep>) returns (steps': seq<WorldStep>)
    requires var w := WorldAfter(responseTtl, steps);
      ErrorTakenUp(w) && HandledTwice(w) && w.bff.responseTtl == responseTtl > 0
    ensures var w, w' := WorldAfter(responseTtl, steps), WorldAfter(responseTtl, steps');
      && w'.handled == w.handled && w'.store == w.store && w'.accounts == w.accounts
      && w'.bff.service.saves == [] && w'.arrivals == [1, 0]
      && Seen(w'.bff.service.cache, "r", 0) == w.handled[0].reply
  {
    var w, finish := WorldAfter(responseTtl, steps), Waiters(Finish(1, 0));
    RunsAreSound(responseTtl, steps);
    SecondAnswerIsParked(w, 0, 0);
    WorldGrows(responseTtl, steps, Accept(0));
    WorldGrows(responseTtl, steps + [Accept(0)], finish);
    steps' := steps + [Accept(0)] + [finish];
  }

  /** A request is handled twice, first with success, and the error of the second handling arrives first. The
      BFF takes up the error: the success that arrives after it is parked, so a poll can still find it, but its
      state is never saved, and the stored token stays what it was. */
  lemma LostSuccess(responseTtl: nat) returns (steps: seq<WorldStep>)
    requires responseTtl > 0
    ensures var w := WorldAfter(responseTtl, steps);
      && HandledTwice(w) && w.arrivals == [1, 0]
      && w.accounts == map["c" := Account(Token().payload.value, [NoChange], [1], Token().payload.value)]
      && Seen(w.bff.service.cache, "r", 0) == w.handled[0].reply
      && w.bff.service.saves == [] && w.store == map["c" := Token()]
  {
    var both := BothHandled(responseTtl);
    BothAnswer(WorldAfter(responseTtl, both));
    TakesUpTheError(WorldAfter(responseTtl, both));
    WorldGrows(responseTtl, both, Accept(1));
    steps := ParksTheSuccess(responseTtl, both + [Accept(1)]);
  }
}
