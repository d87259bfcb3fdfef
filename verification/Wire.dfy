/** What goes over the wire, field by field: how a request is decoded, and what each answer says. */
module Wire {
  import opened Wrappers
  import opened Protocol
  import opened DeviceState
  import opened Sessions
  import opened Operations
  import opened Worker
  import opened StateInitService

  // === Decoding ===

  /** The operations a client asks for before it has a session. */
  predicate BeforeSession(op: OperationId) {
    op in {AuthenticateStart, AuthenticateFinish, RegisterStart, RegisterFinish}
  }

  lemma EncryptionClass(op: OperationId)
    ensures op.EncryptOption().Device? <==> BeforeSession(op)
  {
  }

  /** The state the request carries, if the server signed it. */
  function CarriedState(request: HsmWorkerRequest, r: Replies): Option<StateRecord> {
    if r.verifyState && request.stateJws.signedBy == ServerSigningKey then request.stateJws.payload else None
  }

  /** The outer request, if the device key of its kid signed it. */
  function SignedOuter(request: HsmWorkerRequest, entry: DeviceKeyEntry, r: Replies): Option<OuterRequest> {
    var key := entry.jwsPublicKey;
    if r.verifyDevice && request.outerRequestJws.signedBy == DeviceSigningKey(KeyPair(key.crv, key.x, key.y))
    then request.outerRequestJws.payload else None
  }

  /** Decoding the outer part, by the first check that fails. A request must name the worker's own key, or none
      in legacy key mode. */
  lemma OuterExactly(cfg: WorkerConfig, request: HsmWorkerRequest, r: Replies)
    ensures var result, state, kid := DecodeOuter(cfg, request, r), CarriedState(request, r),
            request.outerRequestJws.kid;
      if state.None? then result == Err(Upstream(InvalidStateJws))
      else if kid.None? then result == Err(Upstream(OuterJwsMissingKid))
      else
        match FindDeviceKey(state.value, kid.value)
        case None => result == Err(Upstream(UnknownDevice))
        case Some(entry) =>
          match SignedOuter(request, entry, r)
          case None => result == Err(Upstream(OuterJwsInvalid))
          case Some(outer) =>
            && (result.Ok? <==>
                  outer.serverKid == Some(cfg.serverKid) || (outer.serverKid == None && cfg.legacyKeyMode))
            && (result == Err(Upstream(UnknownServerKid)) <==>
                  outer.serverKid.Some? && outer.serverKid.value != cfg.serverKid)
            && (result == Err(Upstream(ServerKidRequired)) <==> outer.serverKid == None && !cfg.legacyKeyMode)
            && (result.Ok? ==>
                  && result.value.requestId == request.requestId && result.value.state == state.value
                  && result.value.outerRequest == outer && result.value.deviceKid == kid.value
                  && result.value.deviceJwePublicKey ==
                       (match entry.jwePublicKey
                        case Some(key) => key
                        case None => entry.jwsPublicKey))
  {
  }

  /** Opening the inner part: its kid says which key, the key must open it, and the operation must belong to the
      class it arrived under. */
  lemma InnerExactly(outer: OuterRequest, sessionKey: Option<Bytes>, ok: bool)
    ensures var result := DecryptInner(outer, sessionKey, ok);
      match outer.innerJwe
      case None => result == Err(InnerJweMissing)
      case Some(jwe) =>
        if jwe.kid == Some("session") && sessionKey.None? then result == Err(SessionKeyMissing)
        else if jwe.kid == Some("session") then
          && (result.Ok? <==>
                && ok && jwe.sealedFor == SessionSealingKey(sessionKey.value)
                && jwe.plaintext.Some? && !BeforeSession(jwe.plaintext.value.requestType))
          && (result.Ok? ==> jwe.plaintext == Some(result.value))
          && (result.Err? ==> result.error == InnerJweDecryptFailed)
        else if jwe.kid == Some("device") then
          && (result.Ok? <==>
                && ok && jwe.sealedFor == ServerSealingKey
                && jwe.plaintext.Some? && BeforeSession(jwe.plaintext.value.requestType))
          && (result.Ok? ==> jwe.plaintext == Some(result.value))
          && (result.Err? ==> result.error == InnerJweDecryptFailed)
        else result == Err(UnknownEncryptionOption)
  {
  }

  // === Answers ===

  /** The key an answer in this context is sealed under, and the kid that says so. */
  function SealedUnder(ctx: OperationContext): Option<(string, SealingKey)> {
    if BeforeSession(ctx.innerRequest.requestType) then
      match FindDeviceKey(ctx.state, ctx.deviceKid)
      case None => None
      case Some(entry) =>
        var key := if entry.jwePublicKey.Some? then entry.jwePublicKey.value else entry.jwsPublicKey;
        Some(("device", DeviceSealingKey(KeyPair(key.crv, key.x, key.y))))
    else
      match ctx.sessionState
      case Some(Active(data)) => Some(("session", SessionSealingKey(data.sessionKey)))
      case _ => None
  }

  function SignedByServer<T>(cfg: WorkerConfig, payload: T): Jws<T> {
    Jws(Some(cfg.serverKid), ServerSigningKey, Some(payload))
  }

  lemma FinishedOnTheWire(cfg: WorkerConfig, cache: CacheMap, ctx: OperationContext, outcome: OpOutcome, r: Replies)
    requires FindDeviceKey(ctx.state, ctx.deviceKid).Some? && SealedUnder(ctx).Some?
    requires Finished(cfg, cache, ctx, ContextFor(ctx), outcome, r).result.Ok?
    ensures var p := Finished(cfg, cache, ctx, ContextFor(ctx), outcome, r);
            var (kid, key) := SealedUnder(ctx).value;
      && outcome.Ok?
      && var left := RemainingTtl(p.cache, outcome.value.sessionId, r.ttlAt);
         var inner := InnerResponse(1, Some(outcome.value.data), left, StatusOk, None);
         var outer := OuterResponse(1, outcome.value.sessionId, Some(Jwe(Some(kid), key, Some(inner))), StatusOk, None);
         && p.result.value.requestId == ctx.requestId && p.result.value.status == StatusOk
         && p.result.value.errorMessage == None
         && p.result.value.outerResponseJws == Some(SignedByServer(cfg, outer))
         && p.result.value.stateJws ==
              (if outcome.value.state.Some? then Some(SignedByServer(cfg, outcome.value.state.value)) else None)
  {
  }

  /** The whole success: the operation's data and the remaining time, sealed; its session id; its new state, if
      any; both signed by the server under its own kid. */
  lemma SuccessOnTheWire(cfg: WorkerConfig, cache: CacheMap, request: HsmWorkerRequest, r: Replies)
    requires Process(cfg, cache, request, r).result.Ok?
    ensures var p := Process(cfg, cache, request, r);
      && p.input.Some? && SealedUnder(p.input.value).Some? && Dispatched(p.input.value, r.ports).Ok?
      && var result := Dispatched(p.input.value, r.ports).value;
         var (kid, key) := SealedUnder(p.input.value).value;
         var inner := InnerResponse(1, Some(result.data), RemainingTtl(p.cache, result.sessionId, r.ttlAt), StatusOk,
                                    None);
         var outer := OuterResponse(1, result.sessionId, Some(Jwe(Some(kid), key, Some(inner))), StatusOk, None);
         && p.result.value.requestId == request.requestId && p.result.value.status == StatusOk
         && p.result.value.errorMessage == None
         && p.result.value.outerResponseJws == Some(SignedByServer(cfg, outer))
         && p.result.value.stateJws ==
              (if result.state.Some? then Some(SignedByServer(cfg, result.state.value)) else None)
  {
    ProcessShape(cfg, cache, request, r);
    var ctx := Process(cfg, cache, request, r).input.value;
    FinishedOnTheWire(cfg, cache, ctx, Dispatched(ctx, r.ports), r);
  }

  /** An error answer, by who may see it: the transport, the outer response, or the sealed inner one. It names its
      own error and request, and carries no state, no session id and no data. */
  lemma ErrorOnTheWire(cfg: WorkerConfig, cache: CacheMap, request: HsmWorkerRequest, r: Replies)
    requires var p := Process(cfg, cache, request, r); p.result.Err? && Reply(cfg, request, p, r).Ok?
    ensures var p := Process(cfg, cache, request, r);
            var error, id := p.result.error.error, request.requestId;
            var problem, reply := Problem(error, id), Reply(cfg, request, p, r).value;
      match error
      case Upstream(_) => reply == HsmWorkerResponse(id, None, None, StatusError, Some(problem))
      case Outer(_) =>
        var outer := OuterResponse(1, None, None, StatusError, Some(problem));
        reply == HsmWorkerResponse(id, None, Some(SignedByServer(cfg, outer)), StatusOk, None)
      case Inner(_) =>
        && p.input.Some? && SealedUnder(p.input.value).Some?
        && var (kid, key) := SealedUnder(p.input.value).value;
           var inner := InnerResponse(1, None, None, StatusError, Some(problem));
           var outer := OuterResponse(1, None, Some(Jwe(Some(kid), key, Some(inner))), StatusOk, None);
           reply == HsmWorkerResponse(id, None, Some(SignedByServer(cfg, outer)), StatusOk, None)
  {
    ProcessShape(cfg, cache, request, r);
    var p := Process(cfg, cache, request, r);
    if p.input.Some? {
      FinishedFacts(cfg, cache, p.input.value, ContextFor(p.input.value), Dispatched(p.input.value, r.ports), r);
    }
  }

  /** Which error a handling ends with: that of decoding, that of the operation, an internal error when the cache
      refuses the transition, or the first encoding step that fails. */
  lemma ErrorExactly(cfg: WorkerConfig, cache: CacheMap, request: HsmWorkerRequest, r: Replies)
    requires Process(cfg, cache, request, r).result.Err?
    ensures var p := Process(cfg, cache, request, r);
            var error := p.result.error.error;
      match p.input
      case None => Admitted(cfg, cache, request, r) == Err(error)
      case Some(ctx) =>
        match Dispatched(ctx, r.ports)
        case Err(e) => error == Inner(e) && p.cache == cache
        case Ok(result) =>
          if Transitioned(cache, result.sessionId, result.sessionTransition, r.applyAt).Err? then
            error == Inner(InternalServerError) && p.cache == cache
          else
            error == Upstream(EncodeFailed(
              if !r.serialize then "serialize_inner_response_failed"
              else if !r.encrypt then "inner_response_encrypt_failed"
              else if !r.signOuter then "outer_response_sign_failed"
              else "state_sign_failed"))
  {
    ProcessShape(cfg, cache, request, r);
    InputOfAdmitted(cfg, cache, request, r);
  }

  // === Enrolment ===

  /** The code a client is handed registers it, and no other does: a register-finish on the first state that brings
      a PAKE request succeeds, when its ports do, exactly if it names that code. */
  lemma EnrolmentCodeRegisters(request: StateInitRequest, init: InitReplies, ctx: OperationContext, ports: PortReplies)
    requires Initialized(request, init).Ok? && Initialized(request, init).value.stateJws.payload == Some(ctx.state)
    requires ctx.deviceKid == request.clientJwsPublicKey.kid && ctx.innerRequest.requestType == RegisterFinish
    requires HasPake(ctx) && ports.registrationFinish(PakeDataOf(ctx)).Ok? && ports.toValueOk
    ensures var code := Some(Initialized(request, init).value.devAuthorizationCode);
            var outcome := Dispatched(ctx, ports);
      && (outcome.Ok? <==> ctx.innerRequest.data.value.asPake.value.authorization == code)
      && (outcome.Err? ==> outcome.error == InvalidAuthorizationCode)
  {
    InitialStateShape(request, init);
    SucceedsExactly(ctx, ports);
    if Dispatched(ctx, ports).Err? {
      PakeErrorsExactly(ctx, ports);
    }
  }
}
