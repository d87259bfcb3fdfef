/** The worker's request pipeline: decode, read the session, dispatch, commit the transition, encode. */
module Worker {
  import opened Wrappers
  import opened Protocol
  import opened DeviceState
  import opened Sessions
  import opened Operations

  /** `legacyKeyMode` lets clients omit the server key id. */
  datatype WorkerConfig = WorkerConfig(legacyKeyMode: bool, serverKid: string)

  datatype HsmWorkerRequest = HsmWorkerRequest(
    requestId: string,
    stateJws: Jws<StateRecord>,
    outerRequestJws: Jws<OuterRequest>,
    responseTopic: string)

  datatype HsmWorkerResponse = HsmWorkerResponse(
    requestId: string,
    stateJws: Option<Jws<StateRecord>>,
    outerResponseJws: Option<Jws<OuterResponse>>,
    status: Status,
    errorMessage: Option<Problem>)

  /** One request's view of the world: three clock readings, and which library calls succeed. */
  datatype Replies = Replies(
    readAt: nat,
    applyAt: nat,
    ttlAt: nat,
    ports: PortReplies,
    verifyState: bool,
    verifyDevice: bool,
    decrypt: bool,
    serialize: bool,
    encrypt: bool,
    signOuter: bool,
    signState: bool,
    encryptError: bool,
    signError: bool,
    send: bool)

  // === Decode ===

  datatype PartialRequest = PartialRequest(
    requestId: string,
    state: StateRecord,
    outerRequest: OuterRequest,
    deviceKid: string,
    deviceJwePublicKey: EcPublicJwk)

  datatype ResponseContext = ResponseContext(
    requestId: string,
    requestType: OperationId,
    sessionKey: Option<Bytes>,
    ttl: Option<nat>,
    deviceJwePublicKey: EcPublicJwk)

  datatype WorkerInput = WorkerInput(operation: OperationContext, response: ResponseContext)

  function DecodeOuter(cfg: WorkerConfig, request: HsmWorkerRequest, r: Replies): Result<PartialRequest, WorkerError> {
    var state := Verify(request.stateJws, ServerSigningKey, r.verifyState);
    if state.None? then Err(Upstream(InvalidStateJws))
    else if request.outerRequestJws.kid.None? then Err(Upstream(OuterJwsMissingKid))
    else
      var deviceKid := request.outerRequestJws.kid.value;
      match FindDeviceKey(state.value, deviceKid)
      case None => Err(Upstream(UnknownDevice))
      case Some(entry) =>
        var outer := Verify(request.outerRequestJws, DeviceSigningKey(PairOf(entry.jwsPublicKey)), r.verifyDevice);
        if outer.None? then Err(Upstream(OuterJwsInvalid))
        else if outer.value.serverKid.Some? && outer.value.serverKid.value != cfg.serverKid
             then Err(Upstream(UnknownServerKid))
        else if outer.value.serverKid.None? && !cfg.legacyKeyMode then Err(Upstream(ServerKidRequired))
        else Ok(PartialRequest(request.requestId, state.value, outer.value, deviceKid, entry.EffectiveJwePublicKey()))
  }

  function DecryptInner(outer: OuterRequest, sessionKey: Option<Bytes>, ok: bool): Result<InnerRequest, OuterError> {
    if outer.innerJwe.None? then Err(InnerJweMissing)
    else
      var jwe := outer.innerJwe.value;
      if jwe.kid == Some("session") then
        if sessionKey.None? then Err(SessionKeyMissing)
        else OpenAs(jwe, SessionSealingKey(sessionKey.value), Session, ok)
      else if jwe.kid == Some("device") then OpenAs(jwe, ServerSealingKey, Device, ok)
      else Err(UnknownEncryptionOption)
  }

  /** Opens the inner JWE and checks that its operation belongs to the class it arrived under. */
  function OpenAs(jwe: Jwe<InnerRequest>, key: SealingKey, option: EncryptOption, ok: bool)
    : Result<InnerRequest, OuterError>
  {
    match Decrypt(jwe, key, ok)
    case None => Err(InnerJweDecryptFailed)
    case Some(inner) => if inner.requestType.EncryptOption() == option then Ok(inner) else Err(InnerJweDecryptFailed)
  }

  function DecodeInner(partial: PartialRequest, sessionId: Option<SessionId>, sessionKey: Option<Bytes>, ok: bool)
    : Result<WorkerInput, WorkerError>
  {
    var inner :- DecryptInner(partial.outerRequest, sessionKey, ok).MapErr(e => Outer(e));
    Ok(WorkerInput(
         OperationContext(partial.requestId, partial.state, partial.outerRequest, inner, sessionId, partial.deviceKid,
                          None),
         ResponseContext(partial.requestId, inner.requestType, None, None, partial.deviceJwePublicKey)))
  }

  function SessionKeyOf(s: Option<SessionState>): Option<Bytes> {
    match s
    case Some(Active(data)) => Some(data.sessionKey)
    case _ => None
  }

  // === Encode ===

  datatype ProcessError = ProcessError(error: WorkerError, context: Option<ResponseContext>)

  function SealInner(response: InnerResponse, ctx: ResponseContext, ok: bool): Result<Jwe<InnerResponse>, UpstreamError>
  {
    match ctx.requestType.EncryptOption()
    case Session =>
      if ctx.sessionKey.None? then Err(EncodeFailed("unknown_session"))
      else if ok then Ok(Jwe(Some("session"), SessionSealingKey(ctx.sessionKey.value), Some(response)))
      else Err(EncodeFailed("inner_response_encrypt_failed"))
    case Device =>
      if ok then Ok(Jwe(Some("device"), DeviceSealingKey(PairOf(ctx.deviceJwePublicKey)), Some(response)))
      else Err(EncodeFailed("inner_response_encrypt_failed"))
  }

  function SignOuter(cfg: WorkerConfig, response: OuterResponse, ok: bool): Result<Jws<OuterResponse>, UpstreamError> {
    if ok then Ok(Jws(Some(cfg.serverKid), ServerSigningKey, Some(response)))
    else Err(EncodeFailed("outer_response_sign_failed"))
  }

  function SignState(cfg: WorkerConfig, state: Option<StateRecord>, ok: bool)
    : Result<Option<Jws<StateRecord>>, UpstreamError>
  {
    match state
    case None => Ok(None)
    case Some(s) =>
      if ok then Ok(Some(Jws(Some(cfg.serverKid), ServerSigningKey, Some(s))))
      else Err(EncodeFailed("state_sign_failed"))
  }

  function EncodeResponse(cfg: WorkerConfig, result: OperationResult, ctx: ResponseContext, r: Replies)
    : Result<HsmWorkerResponse, UpstreamError>
  {
    if !r.serialize then Err(EncodeFailed("serialize_inner_response_failed"))
    else
      var innerJwe :- SealInner(InnerOk(result.data, ctx.ttl), ctx, r.encrypt);
      var outerJws :- SignOuter(cfg, OuterOk(innerJwe, result.sessionId), r.signOuter);
      var stateJws :- SignState(cfg, result.state, r.signState);
      Ok(HsmWorkerResponse(ctx.requestId, stateJws, Some(outerJws), StatusOk, None))
  }

  datatype WorkerRequestError = ConnectionError | ResponseBuildError

  function WrapOuter(cfg: WorkerConfig, requestId: string, outer: OuterResponse, ok: bool)
    : Result<HsmWorkerResponse, WorkerRequestError>
  {
    match SignOuter(cfg, outer, ok)
    case Ok(jws) => Ok(HsmWorkerResponse(requestId, None, Some(jws), StatusOk, None))
    case Err(_) => Err(ResponseBuildError)
  }

  function BuildErrorResponse(cfg: WorkerConfig, requestId: string, e: ProcessError, r: Replies)
    : Result<HsmWorkerResponse, WorkerRequestError>
  {
    var problem := Problem(e.error, requestId);
    match e.error
    case Upstream(_) => Ok(HsmWorkerResponse(requestId, None, None, StatusError, Some(problem)))
    case Outer(_) => WrapOuter(cfg, requestId, OuterFailure(problem), r.signError)
    case Inner(_) =>
      if e.context.None? then Err(ResponseBuildError)
      else
        match SealInner(InnerFailure(problem), e.context.value, r.encryptError)
        case Err(_) => Err(ResponseBuildError)
        case Ok(innerJwe) => WrapOuter(cfg, requestId, OuterOk(innerJwe, None), r.signError)
  }

  // === The pipeline ===

  datatype Commit = Commit(id: SessionId, transition: SessionTransition)

  /** What handling one request amounts to. `input` is present once the request was dispatched, with the
      snapshot it was decided on; `commit` is the transition the cache accepted. */
  datatype Processed = Processed(
    result: Result<HsmWorkerResponse, ProcessError>,
    cache: CacheMap,
    input: Option<OperationContext>,
    commit: Option<Commit>)

  /** Phases 1 to 3: the request as its tokens and the session snapshot read at `readAt` present it. */
  function Admitted(cfg: WorkerConfig, cache: CacheMap, request: HsmWorkerRequest, r: Replies)
    : Result<WorkerInput, WorkerError>
  {
    var partial :- DecodeOuter(cfg, request, r);
    var sessionId := partial.outerRequest.sessionId;
    var snapshot := Snapshot(cache, sessionId, r.readAt);
    var sessionKey := SessionKeyOf(snapshot);
    var input :- DecodeInner(partial, sessionId, sessionKey, r.decrypt);
    Ok(WorkerInput(input.operation.(sessionState := snapshot), input.response.(sessionKey := sessionKey)))
  }

  function Process(cfg: WorkerConfig, cache: CacheMap, request: HsmWorkerRequest, r: Replies): Processed {
    match Admitted(cfg, cache, request, r)
    case Err(e) => Processed(Err(ProcessError(e, None)), cache, None, None)
    case Ok(input) => Finished(cfg, cache, input.operation, input.response, Dispatched(input.operation, r.ports), r)
  }

  /** Phases 5 to 7: commit what the operation decided, then encode it. */
  function Finished(cfg: WorkerConfig, cache: CacheMap, ctx: OperationContext, response: ResponseContext,
                    outcome: OpOutcome, r: Replies)
    : Processed
  {
    match outcome
    case Err(e) => Processed(Err(ProcessError(Inner(e), Some(response))), cache, Some(ctx), None)
    case Ok(result) =>
      match Transitioned(cache, result.sessionId, result.sessionTransition, r.applyAt)
      case Err(_) => Processed(Err(ProcessError(Inner(InternalServerError), Some(response))), cache, Some(ctx), None)
      case Ok(cache') =>
        var commit := if result.sessionTransition.Some? && result.sessionId.Some?
                      then Some(Commit(result.sessionId.value, result.sessionTransition.value)) else None;
        var full := response.(ttl := RemainingTtl(cache', result.sessionId, r.ttlAt));
        match EncodeResponse(cfg, result, full, r)
        case Ok(encoded) => Processed(Ok(encoded), cache', Some(ctx), commit)
        case Err(e) => Processed(Err(ProcessError(Upstream(e), Some(full))), cache', Some(ctx), commit)
  }

  /** The response handed to the response port, if one could be built. */
  function Reply(cfg: WorkerConfig, request: HsmWorkerRequest, p: Processed, r: Replies)
    : Result<HsmWorkerResponse, WorkerRequestError>
  {
    match p.result
    case Ok(response) => Ok(response)
    case Err(e) => BuildErrorResponse(cfg, request.requestId, e, r)
  }

  /** What goes out to the response topic. */
  function SentFor(cfg: WorkerConfig, request: HsmWorkerRequest, p: Processed, r: Replies): Option<HsmWorkerResponse> {
    match Reply(cfg, request, p, r)
    case Ok(response) => if r.send then Some(response) else None
    case Err(_) => None
  }

  class WorkerService {
    const cfg: WorkerConfig
    const sessionStatePort: SessionStateMemoryCache
    /** What the response port was asked to send, with the topic. */
    var sent: seq<(HsmWorkerResponse, string)>

    constructor (cfg: WorkerConfig)
      ensures this.cfg == cfg && sent == [] && sessionStatePort.cache == map[]
      ensures fresh(sessionStatePort)
    {
      this.cfg := cfg;
      sessionStatePort := new SessionStateMemoryCache();
      sent := [];
    }

    method ProcessRequest(request: HsmWorkerRequest, r: Replies)
      returns (result: Result<HsmWorkerResponse, ProcessError>)
      modifies sessionStatePort
      ensures var p := Process(cfg, old(sessionStatePort.cache), request, r);
              result == p.result && sessionStatePort.cache == p.cache
    {
      var outerResult := DecodeOuter(cfg, request, r);
      if outerResult.Err? {
        return Err(ProcessError(outerResult.error, None));
      }
      var partial := outerResult.value;
      var sessionId := partial.outerRequest.sessionId;

      var sessionState := None;
      if sessionId.Some? {
        sessionState := sessionStatePort.Get(sessionId.value, r.readAt);
      }
      var sessionKey := SessionKeyOf(sessionState);

      var innerResult := DecodeInner(partial, sessionId, sessionKey, r.decrypt);
      if innerResult.Err? {
        return Err(ProcessError(innerResult.error, None));
      }
      var operationContext := innerResult.value.operation;
      operationContext := operationContext.(sessionState := sessionState);
      var responseContext := innerResult.value.response.(sessionKey := sessionKey);

      var operation := Dispatch(operationContext, r.ports);
      if operation.Err? {
        return Err(ProcessError(Inner(operation.error), Some(responseContext)));
      }
      var applied := sessionStatePort.ApplyTransition(operation.value.sessionId, operation.value.sessionTransition,
                                                      r.applyAt);
      if applied.Err? {
        return Err(ProcessError(Inner(InternalServerError), Some(responseContext)));
      }
      var ttl := sessionStatePort.GetRemainingTtl(operation.value.sessionId, r.ttlAt);
      responseContext := responseContext.(ttl := ttl);
      var encoded := EncodeResponse(cfg, operation.value, responseContext, r);
      match encoded {
        case Ok(response) => return Ok(response);
        case Err(e) => return Err(ProcessError(Upstream(e), Some(responseContext)));
      }
    }

    /** Handles one request end to end; at most one response is sent, to the request's topic. */
    method Execute(request: HsmWorkerRequest, r: Replies) returns (result: Result<string, WorkerRequestError>)
      modifies this`sent, sessionStatePort
      ensures var p := Process(cfg, old(sessionStatePort.cache), request, r);
              var reply := Reply(cfg, request, p, r);
              && sessionStatePort.cache == p.cache
              && (reply.Err? ==> result == Err(ResponseBuildError))
              && (reply.Ok? ==> result == if r.send then Ok(request.requestId) else Err(ConnectionError))
              && match SentFor(cfg, request, p, r)
                 case Some(response) => sent == old(sent) + [(response, request.responseTopic)]
                 case None => sent == old(sent)
    {
      var processed := ProcessRequest(request, r);
      var response;
      match processed {
        case Ok(res) =>
          response := res;
        case Err(e) =>
          var built := BuildErrorResponse(cfg, request.requestId, e, r);
          if built.Err? {
            return Err(built.error);
          }
          response := built.value;
      }
      if !r.send {
        return Err(ConnectionError);
      }
      sent := sent + [(response, request.responseTopic)];
      return Ok(request.requestId);
    }
  }

  // === What the client can see in a reply ===

  /** The inner JWE a reply carries, if any. */
  function InnerOf(response: HsmWorkerResponse): Option<Jwe<InnerResponse>> {
    match response.outerResponseJws
    case Some(Jws(_, _, Some(outer))) => outer.innerJwe
    case _ => None
  }

  /** The client is told of a failure, in the outer or in the inner response. */
  predicate ClientSeesError(response: HsmWorkerResponse) {
    match response.outerResponseJws
    case Some(Jws(_, _, Some(outer))) =>
      || outer.status == StatusError
      || (outer.innerJwe.Some? && outer.innerJwe.value.plaintext.Some?
          && outer.innerJwe.value.plaintext.value.status == StatusError)
    case _ => false
  }

  predicate ClientSeesSuccess(response: HsmWorkerResponse) {
    match InnerOf(response)
    case Some(jwe) => jwe.plaintext.Some? && jwe.plaintext.value.status == StatusOk
    case None => false
  }

  // === Taking the pipeline apart ===

  /** The context an answer to this operation is encoded in. */
  function ContextFor(ctx: OperationContext): ResponseContext
    requires FindDeviceKey(ctx.state, ctx.deviceKid).Some?
  {
    ResponseContext(ctx.requestId, ctx.innerRequest.requestType, SessionKeyOf(ctx.sessionState), None,
                    FindDeviceKey(ctx.state, ctx.deviceKid).value.EffectiveJwePublicKey())
  }

  /** A request that is not dispatched is refused with no context and leaves no trace. */
  predicate Refused(cache: CacheMap, p: Processed) {
    && p.input.None? && p.commit.None? && p.cache == cache
    && p.result.Err? && p.result.error.context.None?
    && (p.result.error.error.Outer? || (p.result.error.error.Upstream? && !p.result.error.error.upstream.EncodeFailed?))
  }

  /** The key that opened the inner request, and what had to be true for it to be used. */
  predicate OpenedUnderItsKey(ctx: OperationContext) {
    && ctx.outerRequest.innerJwe.Some?
    && ctx.outerRequest.innerJwe.value.plaintext == Some(ctx.innerRequest)
    && match ctx.innerRequest.requestType.EncryptOption()
       case Session =>
         && ctx.sessionId.Some?
         && ctx.sessionState.Some? && ctx.sessionState.value.Active?
         && ctx.outerRequest.innerJwe.value.sealedFor == SessionSealingKey(ctx.sessionState.value.data.sessionKey)
       case Device => ctx.outerRequest.innerJwe.value.sealedFor == ServerSealingKey
  }

  /** The context comes from the request's own tokens and from a cache read at `readAt`. */
  predicate ReadFrom(cfg: WorkerConfig, ctx: OperationContext, cache: CacheMap, request: HsmWorkerRequest, r: Replies) {
    && ctx.requestId == request.requestId
    && request.outerRequestJws.kid == Some(ctx.deviceKid)
    && request.outerRequestJws.payload == Some(ctx.outerRequest)
    && request.stateJws == Jws(request.stateJws.kid, ServerSigningKey, Some(ctx.state))
    && FindDeviceKey(ctx.state, ctx.deviceKid).Some?
    && request.outerRequestJws.signedBy ==
         DeviceSigningKey(PairOf(FindDeviceKey(ctx.state, ctx.deviceKid).value.jwsPublicKey))
    && (ctx.outerRequest.serverKid == Some(cfg.serverKid) || (ctx.outerRequest.serverKid == None && cfg.legacyKeyMode))
    && ctx.sessionId == ctx.outerRequest.sessionId
    && ctx.sessionState == Snapshot(cache, ctx.sessionId, r.readAt)
  }

  lemma InnerOpened(outer: OuterRequest, sessionKey: Option<Bytes>, ok: bool)
    requires DecryptInner(outer, sessionKey, ok).Ok?
    ensures outer.innerJwe.Some?
    ensures outer.innerJwe.value.plaintext == Some(DecryptInner(outer, sessionKey, ok).value)
    ensures match DecryptInner(outer, sessionKey, ok).value.requestType.EncryptOption()
            case Session => sessionKey.Some? && outer.innerJwe.value.sealedFor == SessionSealingKey(sessionKey.value)
            case Device => outer.innerJwe.value.sealedFor == ServerSealingKey
  {
  }

  lemma AdmittedFacts(cfg: WorkerConfig, cache: CacheMap, request: HsmWorkerRequest, r: Replies)
    ensures match Admitted(cfg, cache, request, r)
            case Err(e) => e.Outer? || (e.Upstream? && !e.upstream.EncodeFailed?)
            case Ok(input) =>
              && ReadFrom(cfg, input.operation, cache, request, r)
              && OpenedUnderItsKey(input.operation)
              && input.response == ContextFor(input.operation)
  {
    var outerResult := DecodeOuter(cfg, request, r);
    if outerResult.Ok? {
      var outer := outerResult.value.outerRequest;
      var sessionKey := SessionKeyOf(Snapshot(cache, outer.sessionId, r.readAt));
      if DecryptInner(outer, sessionKey, r.decrypt).Ok? {
        InnerOpened(outer, sessionKey, r.decrypt);
      }
    }
  }

  lemma FinishedInput(cfg: WorkerConfig, cache: CacheMap, ctx: OperationContext, response: ResponseContext,
                      outcome: OpOutcome, r: Replies)
    ensures Finished(cfg, cache, ctx, response, outcome, r).input == Some(ctx)
  {
  }

  /** Either the request is refused while decoding, or it is dispatched in a context read from its tokens. */
  lemma ProcessShape(cfg: WorkerConfig, cache: CacheMap, request: HsmWorkerRequest, r: Replies)
    ensures var p := Process(cfg, cache, request, r);
      && (p.input.None? ==> Refused(cache, p))
      && (p.input.Some? ==>
            && ReadFrom(cfg, p.input.value, cache, request, r)
            && OpenedUnderItsKey(p.input.value)
            && p ==
                 Finished(cfg, cache, p.input.value, ContextFor(p.input.value), Dispatched(p.input.value, r.ports), r))
  {
    AdmittedFacts(cfg, cache, request, r);
    var admitted := Admitted(cfg, cache, request, r);
    if admitted.Ok? {
      FinishedInput(cfg, cache, admitted.value.operation, admitted.value.response,
                    Dispatched(admitted.value.operation, r.ports), r);
    }
  }

  /** Phases 5 to 7 for any decision at all: a commit is what the cache accepted, and it is never followed
      by anything but success or an encoding failure. */
  lemma FinishedFacts(cfg: WorkerConfig, cache: CacheMap, ctx: OperationContext, response: ResponseContext,
                      outcome: OpOutcome, r: Replies)
    ensures var p := Finished(cfg, cache, ctx, response, outcome, r);
      && (p.commit.None? ==> p.cache == cache)
      && (p.commit.Some? ==>
            && outcome.Ok?
            && outcome.value.sessionId == Some(p.commit.value.id)
            && outcome.value.sessionTransition == Some(p.commit.value.transition)
            && Transitioned(cache, Some(p.commit.value.id), Some(p.commit.value.transition), r.applyAt) == Ok(p.cache)
            && (p.result.Ok? || p.result.error.error.Upstream?))
      && (p.result.Ok? ==> outcome.Ok? && p.result.value.stateJws.Some? == outcome.value.state.Some?)
      && (p.result.Ok? && outcome.value.sessionTransition.Some? ==> p.commit.Some?)
      && (p.result.Ok? && outcome.value.state.Some? ==>
            p.result.value.stateJws.value == Jws(Some(cfg.serverKid), ServerSigningKey, outcome.value.state))
      && (p.result.Ok? ==>
            && p.result.value.requestId == response.requestId && p.result.value.status == StatusOk
            && ClientSeesSuccess(p.result.value) && !ClientSeesError(p.result.value))
      && (p.result.Err? ==>
            && p.result.error.context.Some?
            && p.result.error.context.value.requestType == response.requestType
            && p.result.error.context.value.sessionKey == response.sessionKey
            && p.result.error.context.value.deviceJwePublicKey == response.deviceJwePublicKey
            && (p.result.error.error.Inner?
                || (p.result.error.error.Upstream? && p.result.error.error.upstream.EncodeFailed?)))
  {
  }

  /** An error answer never carries state and never reads as a success. */
  lemma ErrorAnswerFacts(cfg: WorkerConfig, requestId: string, e: ProcessError, r: Replies)
    requires BuildErrorResponse(cfg, requestId, e, r).Ok?
    ensures var reply := BuildErrorResponse(cfg, requestId, e, r).value;
      && reply.requestId == requestId
      && reply.stateJws.None?
      && !ClientSeesSuccess(reply)
      && (ClientSeesError(reply) <==> !e.error.Upstream?)
      && (e.error.Upstream? <==> reply.outerResponseJws.None?)
      && (e.error.Upstream? <==> reply.status == StatusError)
  {
  }

  // === Atomicity of failures ===

  /** The cache changes by committed transitions only, and a commit is never followed by a refusal:
      after it the request either succeeds or fails to encode. */
  lemma CommitThenSuccessOrEncodeFailure(cfg: WorkerConfig, cache: CacheMap, request: HsmWorkerRequest, r: Replies)
    ensures var p := Process(cfg, cache, request, r);
      && (p.commit.None? ==> p.cache == cache)
      && (p.commit.Some? ==>
            && Transitioned(cache, Some(p.commit.value.id), Some(p.commit.value.transition), r.applyAt) == Ok(p.cache)
            && (p.result.Ok? || (p.result.error.error.Upstream? && p.result.error.error.upstream.EncodeFailed?)))
  {
    var p := Process(cfg, cache, request, r);
    ProcessShape(cfg, cache, request, r);
    if p.input.Some? {
      FinishedFacts(cfg, cache, p.input.value, ContextFor(p.input.value), Dispatched(p.input.value, r.ports), r);
    }
  }

  /** Whenever a handling of a request answers with an error, that handling changed neither the cache nor the
      device state. Another handling of the same request may have: see `SecondHandlingRefused`. */
  lemma FailureAtomicity(cfg: WorkerConfig, cache: CacheMap, request: HsmWorkerRequest, r: Replies)
    ensures var p := Process(cfg, cache, request, r);
            var reply := Reply(cfg, request, p, r);
            reply.Ok? ==>
              && (ClientSeesError(reply.value) ==> p.cache == cache && p.commit.None? && reply.value.stateJws.None?)
              && (ClientSeesSuccess(reply.value) <==> p.result.Ok?)
              && (reply.value.status == StatusError <==> reply.value.outerResponseJws.None?)
              && (reply.value.stateJws.Some? ==> ClientSeesSuccess(reply.value))
              && reply.value.requestId == request.requestId
  {
    var p := Process(cfg, cache, request, r);
    ProcessShape(cfg, cache, request, r);
    CommitThenSuccessOrEncodeFailure(cfg, cache, request, r);
    if p.input.Some? {
      FinishedFacts(cfg, cache, p.input.value, ContextFor(p.input.value), Dispatched(p.input.value, r.ports), r);
    }
    if p.result.Err? && Reply(cfg, request, p, r).Ok? {
      ErrorAnswerFacts(cfg, request.requestId, p.result.error, r);
    }
  }

  /** Handling a request changes the cache exactly when it commits. */
  lemma CommitChangesCache(cfg: WorkerConfig, cache: CacheMap, request: HsmWorkerRequest, r: Replies)
    ensures var p := Process(cfg, cache, request, r); p.cache != cache <==> p.commit.Some?
  {
    var p := Process(cfg, cache, request, r);
    CommitThenSuccessOrEncodeFailure(cfg, cache, request, r);
    if p.commit.Some? {
      TransitionChanges(cache, p.commit.value.id, p.commit.value.transition, r.applyAt);
    }
  }

  lemma InputOfAdmitted(cfg: WorkerConfig, cache: CacheMap, request: HsmWorkerRequest, r: Replies)
    ensures var p, admitted := Process(cfg, cache, request, r), Admitted(cfg, cache, request, r);
            p.input == if admitted.Ok? then Some(admitted.value.operation) else None
  {
    ProcessShape(cfg, cache, request, r);
    var admitted := Admitted(cfg, cache, request, r);
    if admitted.Ok? {
      FinishedInput(cfg, cache, admitted.value.operation, admitted.value.response,
                    Dispatched(admitted.value.operation, r.ports), r);
    }
  }

  /** The same request is let through again as long as its session key is the same. */
  lemma AdmittedAgain(cfg: WorkerConfig, cache: CacheMap, request: HsmWorkerRequest, r: Replies,
                      cache': CacheMap, r': Replies)
    requires Admitted(cfg, cache, request, r).Ok? && r'.verifyState && r'.verifyDevice && r'.decrypt
    requires var id := Admitted(cfg, cache, request, r).value.operation.sessionId;
             SessionKeyOf(Snapshot(cache', id, r'.readAt)) == SessionKeyOf(Snapshot(cache, id, r.readAt))
    ensures var input := Admitted(cfg, cache, request, r).value;
            var snapshot := Snapshot(cache', input.operation.sessionId, r'.readAt);
            Admitted(cfg, cache', request, r') ==
              Ok(input.(operation := input.operation.(sessionState := snapshot)))
  {
  }

  /** What a successful HSM operation leaves in the cache: the session under its key, its one operation used. */
  lemma OperationIsUsed(cfg: WorkerConfig, cache: CacheMap, request: HsmWorkerRequest, r: Replies, later: nat)
    requires var p := Process(cfg, cache, request, r);
      p.result.Ok? && p.input.Some? && p.input.value.innerRequest.requestType.HsmMutating()
    requires r.applyAt <= later < r.applyAt + SESSION_TTL
    ensures var p := Process(cfg, cache, request, r);
            var snapshot := Snapshot(p.cache, p.input.value.sessionId, later);
      && p.commit.Some? && HsmOperationUsed(snapshot)
      && SessionKeyOf(snapshot) == SessionKeyOf(p.input.value.sessionState)
  {
    var p := Process(cfg, cache, request, r);
    var ctx := p.input.value;
    ProcessShape(cfg, cache, request, r);
    FinishedFacts(cfg, cache, ctx, ContextFor(ctx), Dispatched(ctx, r.ports), r);
    TransitionOf(ctx, r.ports);
  }

  lemma GuardRefuses(ctx: OperationContext, ports: PortReplies)
    requires ctx.innerRequest.requestType.HsmMutating() && HsmOperationUsed(ctx.sessionState)
    ensures Dispatched(ctx, ports) == Err(InvalidOperation)
  {
  }

  /** Redelivery alone can follow a success by an error: handled again while the session lives, a successful
      HSM request is refused, although every library call succeeds, and the client is told so. */
  lemma SecondHandlingRefused(cfg: WorkerConfig, cache: CacheMap, request: HsmWorkerRequest, r: Replies, r': Replies)
    requires var p := Process(cfg, cache, request, r);
      p.result.Ok? && p.input.Some? && p.input.value.innerRequest.requestType.HsmMutating()
    requires r.applyAt <= r'.readAt < r.applyAt + SESSION_TTL
    requires r'.verifyState && r'.verifyDevice && r'.decrypt && r'.encryptError && r'.signError
    ensures var p := Process(cfg, cache, request, r);
            var p' := Process(cfg, p.cache, request, r');
            var reply := Reply(cfg, request, p', r');
      && p.commit.Some? && p.cache != cache
      && p'.commit.None? && p'.cache == p.cache
      && p'.result.Err? && p'.result.error.error == Inner(InvalidOperation)
      && reply.Ok? && ClientSeesError(reply.value)
  {
    var p := Process(cfg, cache, request, r);
    InputOfAdmitted(cfg, cache, request, r);
    ProcessShape(cfg, cache, request, r);
    OperationIsUsed(cfg, cache, request, r, r'.readAt);
    AdmittedAgain(cfg, cache, request, r, p.cache, r');
    var input := Admitted(cfg, p.cache, request, r').value;
    GuardRefuses(input.operation, r'.ports);
    CommitChangesCache(cfg, cache, request, r);
    AnsweredWithError(cfg, p.cache, request, r');
  }

  /** An inner error always reaches the client when it can be encrypted and signed. */
  lemma AnsweredWithError(cfg: WorkerConfig, cache: CacheMap, request: HsmWorkerRequest, r: Replies)
    requires var p := Process(cfg, cache, request, r); p.result.Err? && p.result.error.error.Inner?
    requires r.encryptError && r.signError
    ensures var reply := Reply(cfg, request, Process(cfg, cache, request, r), r);
            reply.Ok? && ClientSeesError(reply.value)
  {
    var p := Process(cfg, cache, request, r);
    UnreachableErrors(cfg, cache, request, r);
    ErrorAnswerFacts(cfg, request.requestId, p.result.error, r);
  }

  /** A committed request's success goes out exactly when its answer is serialised, encrypted and signed, with
      its new state if there is one, and the send succeeds. Otherwise an upstream error goes out, or, when it is
      the send that fails, nothing. */
  lemma CommitWithoutAnswer(cfg: WorkerConfig, cache: CacheMap, request: HsmWorkerRequest, r: Replies)
    requires Process(cfg, cache, request, r).commit.Some?
    ensures var p := Process(cfg, cache, request, r);
            var sent := SentFor(cfg, request, p, r);
            && p.input.Some? && Dispatched(p.input.value, r.ports).Ok?
            && ((sent.Some? && ClientSeesSuccess(sent.value)) <==>
                  (r.serialize && r.encrypt && r.signOuter
                   && (Dispatched(p.input.value, r.ports).value.state.Some? ==> r.signState)
                   && r.send))
            && (sent.Some? && !ClientSeesSuccess(sent.value) ==>
                  sent.value.outerResponseJws.None? && sent.value.status == StatusError)
            && (sent.None? <==> !r.send)
  {
    var p := Process(cfg, cache, request, r);
    ProcessShape(cfg, cache, request, r);
    var ctx, outcome := p.input.value, Dispatched(p.input.value, r.ports);
    FinishedFacts(cfg, cache, ctx, ContextFor(ctx), outcome, r);
    EncodedIff(cfg, cache, ctx, ContextFor(ctx), outcome, r);
    if p.result.Err? {
      ErrorAnswerFacts(cfg, request.requestId, p.result.error, r);
    }
  }

  lemma EncodedIff(cfg: WorkerConfig, cache: CacheMap, ctx: OperationContext, response: ResponseContext,
                   outcome: OpOutcome, r: Replies)
    requires Finished(cfg, cache, ctx, response, outcome, r).commit.Some?
    requires response.requestType.EncryptOption().Session? ==> response.sessionKey.Some?
    ensures Finished(cfg, cache, ctx, response, outcome, r).result.Ok? <==>
              (r.serialize && r.encrypt && r.signOuter && (outcome.value.state.Some? ==> r.signState))
  {
  }

  // === Keys on the way in and on the way out ===

  /** A session-class operation is dispatched only on an active snapshot, from a request sealed under that
      session's key; a device-class one only from a request sealed for the server. */
  lemma DispatchedUnderItsKey(cfg: WorkerConfig, cache: CacheMap, request: HsmWorkerRequest, r: Replies)
    requires Process(cfg, cache, request, r).input.Some?
    ensures OpenedUnderItsKey(Process(cfg, cache, request, r).input.value)
    ensures ReadFrom(cfg, Process(cfg, cache, request, r).input.value, cache, request, r)
  {
    ProcessShape(cfg, cache, request, r);
  }

  /** The key an answer in this context is sealed for. */
  function ReplyKey(response: ResponseContext): Option<SealingKey> {
    match response.requestType.EncryptOption()
    case Session => if response.sessionKey.Some? then Some(SessionSealingKey(response.sessionKey.value)) else None
    case Device => Some(DeviceSealingKey(PairOf(response.deviceJwePublicKey)))
  }

  lemma SuccessSealedFor(cfg: WorkerConfig, cache: CacheMap, ctx: OperationContext, response: ResponseContext,
                         outcome: OpOutcome, r: Replies)
    requires Finished(cfg, cache, ctx, response, outcome, r).result.Ok?
    ensures var reply := Finished(cfg, cache, ctx, response, outcome, r).result.value;
            InnerOf(reply).Some? && ReplyKey(response) == Some(InnerOf(reply).value.sealedFor)
  {
  }

  lemma ErrorSealedFor(cfg: WorkerConfig, requestId: string, e: ProcessError, r: Replies)
    requires BuildErrorResponse(cfg, requestId, e, r).Ok?
    ensures var reply := BuildErrorResponse(cfg, requestId, e, r).value;
            InnerOf(reply).Some? ==>
              e.context.Some? && ReplyKey(e.context.value) == Some(InnerOf(reply).value.sealedFor)
  {
  }

  /** The reply's inner part, success or error, even for end-session, is sealed under the key its request
      used, or for the device that signed it. */
  lemma ReplyUnderItsKey(cfg: WorkerConfig, cache: CacheMap, request: HsmWorkerRequest, r: Replies)
    ensures var p := Process(cfg, cache, request, r);
            var reply := Reply(cfg, request, p, r);
            reply.Ok? && InnerOf(reply.value).Some? ==>
              && p.input.Some?
              && var ctx, jwe := p.input.value, InnerOf(reply.value).value;
                 match ctx.innerRequest.requestType.EncryptOption()
                 case Session => ctx.outerRequest.innerJwe.Some?
                                 && jwe.sealedFor == ctx.outerRequest.innerJwe.value.sealedFor
                 case Device =>
                   && FindDeviceKey(ctx.state, ctx.deviceKid).Some?
                   && jwe.sealedFor ==
                        DeviceSealingKey(PairOf(FindDeviceKey(ctx.state, ctx.deviceKid).value.EffectiveJwePublicKey()))
  {
    var p := Process(cfg, cache, request, r);
    var reply := Reply(cfg, request, p, r);
    ProcessShape(cfg, cache, request, r);
    if p.input.Some? {
      FinishedFacts(cfg, cache, p.input.value, ContextFor(p.input.value), Dispatched(p.input.value, r.ports), r);
      if p.result.Ok? {
        SuccessSealedFor(cfg, cache, p.input.value, ContextFor(p.input.value), Dispatched(p.input.value, r.ports), r);
      }
    }
    if p.result.Err? && reply.Ok? {
      ErrorSealedFor(cfg, request.requestId, p.result.error, r);
    }
  }

  lemma NoUnknownSession(cfg: WorkerConfig, cache: CacheMap, ctx: OperationContext, response: ResponseContext,
                         outcome: OpOutcome, r: Replies)
    requires response.requestType.EncryptOption().Session? ==> response.sessionKey.Some?
    ensures var result := Finished(cfg, cache, ctx, response, outcome, r).result;
            result.Err? ==> result.error.error != Upstream(EncodeFailed("unknown_session"))
  {
  }

  lemma ErrorAnswerBuilds(cfg: WorkerConfig, requestId: string, e: ProcessError, r: Replies)
    requires e.error.Inner? ==>
               e.context.Some?
               && (e.context.value.requestType.EncryptOption().Session? ==> e.context.value.sessionKey.Some?)
    ensures BuildErrorResponse(cfg, requestId, e, r).Err? <==>
              ((e.error.Outer? && !r.signError) || (e.error.Inner? && !(r.encryptError && r.signError)))
  {
  }

  /** The "unknown_session" encode failure and an inner error without a usable response context never
      happen: a reply fails to build only because a library call failed. */
  lemma UnreachableErrors(cfg: WorkerConfig, cache: CacheMap, request: HsmWorkerRequest, r: Replies)
    ensures var p := Process(cfg, cache, request, r);
      && (p.result.Err? ==> p.result.error.error != Upstream(EncodeFailed("unknown_session")))
      && (p.result.Err? && p.result.error.error.Inner? ==> p.result.error.context.Some?)
      && (Reply(cfg, request, p, r).Err? <==>
            (p.result.Err? && ((p.result.error.error.Outer? && !r.signError)
                               || (p.result.error.error.Inner? && !(r.encryptError && r.signError)))))
  {
    var p := Process(cfg, cache, request, r);
    ProcessShape(cfg, cache, request, r);
    if p.input.Some? {
      FinishedFacts(cfg, cache, p.input.value, ContextFor(p.input.value), Dispatched(p.input.value, r.ports), r);
      NoUnknownSession(cfg, cache, p.input.value, ContextFor(p.input.value), Dispatched(p.input.value, r.ports), r);
    }
    if p.result.Err? {
      ErrorAnswerBuilds(cfg, request.requestId, p.result.error, r);
    }
  }

  lemma ReportedIn(cfg: WorkerConfig, cache: CacheMap, ctx: OperationContext, response: ResponseContext,
                   outcome: OpOutcome, r: Replies)
    requires Finished(cfg, cache, ctx, response, outcome, r).result.Ok?
    ensures var p := Finished(cfg, cache, ctx, response, outcome, r);
      && outcome.Ok? && InnerOf(p.result.value).Some? && InnerOf(p.result.value).value.plaintext.Some?
      && InnerOf(p.result.value).value.plaintext.value.expiresIn ==
           RemainingTtl(p.cache, outcome.value.sessionId, r.ttlAt)
  {
  }

  /** The time to live a success reports is never above 600 seconds, and without another write the session is
      readable for exactly that long; nothing is reported once the session is gone. */
  lemma ReportedTtl(cfg: WorkerConfig, cache: CacheMap, request: HsmWorkerRequest, r: Replies)
    requires Process(cfg, cache, request, r).result.Ok?
    ensures var p := Process(cfg, cache, request, r);
      && p.input.Some? && Dispatched(p.input.value, r.ports).Ok?
      && InnerOf(p.result.value).Some? && InnerOf(p.result.value).value.plaintext.Some?
      && var id := Dispatched(p.input.value, r.ports).value.sessionId;
         var left := InnerOf(p.result.value).value.plaintext.value.expiresIn;
         && (left.Some? <==> Snapshot(p.cache, id, r.ttlAt).Some?)
         && (left.Some? ==> left.value <= SESSION_TTL && id.value in p.cache)
         && (left.Some? && p.cache[id.value].insertedAt <= r.ttlAt ==>
               forall later: nat :: r.ttlAt <= later ==>
                 (Snapshot(p.cache, id, later).Some? <==> later < r.ttlAt + left.value))
  {
    ProcessShape(cfg, cache, request, r);
    var p := Process(cfg, cache, request, r);
    ReportedIn(cfg, cache, p.input.value, ContextFor(p.input.value), Dispatched(p.input.value, r.ports), r);
  }

  /** A transition is never asked for without the session it applies to. */
  lemma TransitionHasSession(cfg: WorkerConfig, cache: CacheMap, request: HsmWorkerRequest, r: Replies)
    ensures var p := Process(cfg, cache, request, r);
            p.input.Some? && Dispatched(p.input.value, r.ports).Ok? ==>
              (Dispatched(p.input.value, r.ports).value.sessionTransition.Some? ==>
                 Dispatched(p.input.value, r.ports).value.sessionId.Some?)
  {
    var p := Process(cfg, cache, request, r);
    ProcessShape(cfg, cache, request, r);
    if p.input.Some? && Dispatched(p.input.value, r.ports).Ok? {
      TransitionOf(p.input.value, r.ports);
      SnapshotGuards(p.input.value, r.ports);
    }
  }
}
