/** The client's side of the envelope: what it builds is what the worker decodes, and what the worker
    answers is what it parses. */
module Envelope {
  import opened Wrappers
  import opened Protocol
  import opened DeviceState
  import opened Sessions
  import opened Operations
  import opened Worker

  // === Building ===

  datatype BuildError = EncryptFailed | SignFailed

  /** The device's signing key pair with the kid it is registered under, a fresh nonce, and whether the
      client's own library calls succeed. */
  datatype Signer = Signer(pair: KeyPair, kid: string, nonce: string, encrypt: bool, sign: bool)

  function Signed(outer: OuterRequest, device: Signer): Result<Jws<OuterRequest>, BuildError> {
    if device.sign then Ok(Jws(Some(device.kid), DeviceSigningKey(device.pair), Some(outer))) else Err(SignFailed)
  }

  function Sealed(inner: InnerRequest, key: SealingKey, kid: string, device: Signer)
    : Result<Jwe<InnerRequest>, BuildError>
  {
    if device.encrypt then Ok(Jwe(Some(kid), key, Some(inner))) else Err(EncryptFailed)
  }

  /** `data` is the JSON text of the PAKE request. */
  function BuildPakeRequestJws(op: OperationId, data: RequestData, sessionId: Option<SessionId>, device: Signer)
    : Result<Jws<OuterRequest>, BuildError>
  {
    var innerJwe :- Sealed(InnerRequest(1, op, Some(data)), ServerSealingKey, "device", device);
    Signed(OuterRequest(1, sessionId, None, Some(innerJwe), device.nonce), device)
  }

  function BuildSessionRequestJws(op: OperationId, data: RequestData, sessionId: SessionId, sessionKey: Bytes,
                                  device: Signer)
    : Result<Jws<OuterRequest>, BuildError>
  {
    var innerJwe :- Sealed(InnerRequest(1, op, Some(data)), SessionSealingKey(sessionKey), "session", device);
    Signed(OuterRequest(1, Some(sessionId), None, Some(innerJwe), device.nonce), device)
  }

  /** What the builders put on the wire, or which library call failed first. */
  lemma BuiltOnTheWire(op: OperationId, data: RequestData, sessionId: SessionId, sessionKey: Bytes, device: Signer)
    ensures var inner := InnerRequest(1, op, Some(data));
            var pake := BuildPakeRequestJws(op, data, Some(sessionId), device);
            var session := BuildSessionRequestJws(op, data, sessionId, sessionKey, device);
            if !device.encrypt then pake == session == Err(EncryptFailed)
            else if !device.sign then pake == session == Err(SignFailed)
            else
              && pake == Ok(Jws(Some(device.kid), DeviceSigningKey(device.pair), Some(
                   OuterRequest(1, Some(sessionId), None, Some(Jwe(Some("device"), ServerSealingKey, Some(inner))),
                                device.nonce))))
              && session == Ok(Jws(Some(device.kid), DeviceSigningKey(device.pair), Some(
                   OuterRequest(1, Some(sessionId), None,
                                Some(Jwe(Some("session"), SessionSealingKey(sessionKey), Some(inner))), device.nonce))))
  {
  }

  // === Parsing ===

  datatype ParseError = BadOuter | DecryptFailed

  /** What both parsers return; the PAKE parser extracts bytes, the session parser keeps the data whole. */
  datatype Parsed<+T> = Parsed(sessionId: Option<SessionId>, status: Status, data: Option<T>)

  /** The signature is not checked here. */
  function UnwrapPakeResponse(response: Jws<OuterResponse>, pair: KeyPair, ok: bool): Result<Parsed<Bytes>, ParseError>
  {
    if response.payload.None? then Err(BadOuter)
    else
      var outer := response.payload.value;
      if outer.innerJwe.None? then Ok(Parsed(outer.sessionId, StatusError, None))
      else
        match Decrypt(outer.innerJwe.value, DeviceSealingKey(pair), ok)
        case None => Err(DecryptFailed)
        case Some(inner) =>
          if inner.status != StatusOk then Ok(Parsed(outer.sessionId, inner.status, None))
          else Ok(Parsed(outer.sessionId, inner.status, PakeBytes(inner.data)))
  }

  function PakeBytes(data: Option<ResponseData>): Option<Bytes> {
    match data
    case Some(PakeResponse(bytes)) => bytes
    case _ => None
  }

  function UnwrapSessionResponse(response: Jws<OuterResponse>, sessionKey: Bytes, ok: bool)
    : Result<Parsed<ResponseData>, ParseError>
  {
    if response.payload.None? then Err(BadOuter)
    else
      var outer := response.payload.value;
      if outer.innerJwe.None? then Ok(Parsed(outer.sessionId, StatusError, None))
      else
        match Decrypt(outer.innerJwe.value, SessionSealingKey(sessionKey), ok)
        case None => Err(DecryptFailed)
        case Some(inner) => Ok(Parsed(outer.sessionId, inner.status, inner.data))
  }

  /** What the parsers make of any response: its session id, and of the inner part, if there is one and it opens,
      the status and the data. PAKE data is read of a success only. */
  lemma ParsedExactly(response: Jws<OuterResponse>, pair: KeyPair, sessionKey: Bytes, ok: bool)
    ensures var pake, session := UnwrapPakeResponse(response, pair, ok),
            UnwrapSessionResponse(response, sessionKey, ok);
      match response.payload
      case None => pake == Err(BadOuter) && session == Err(BadOuter)
      case Some(outer) =>
        match outer.innerJwe
        case None => pake == Ok(Parsed(outer.sessionId, StatusError, None))
                     && session == Ok(Parsed(outer.sessionId, StatusError, None))
        case Some(jwe) =>
          && (session.Ok? <==> ok && jwe.sealedFor == SessionSealingKey(sessionKey) && jwe.plaintext.Some?)
          && (session.Err? ==> session.error == DecryptFailed)
          && (session.Ok? ==>
                session.value == Parsed(outer.sessionId, jwe.plaintext.value.status, jwe.plaintext.value.data))
          && (pake.Ok? <==> ok && jwe.sealedFor == DeviceSealingKey(pair) && jwe.plaintext.Some?)
          && (pake.Err? ==> pake.error == DecryptFailed)
          && (pake.Ok? ==>
                && pake.value.sessionId == outer.sessionId && pake.value.status == jwe.plaintext.value.status
                && forall bytes :: pake.value.data == Some(bytes) <==>
                     jwe.plaintext.value.status == StatusOk
                     && jwe.plaintext.value.data == Some(PakeResponse(Some(bytes))))
  {
  }

  // === What the worker decodes ===

  /** The request's state token verifies and its device entry has the key pair the client signed with. */
  predicate KnowsSigner(request: HsmWorkerRequest, device: Signer, r: Replies) {
    match Verify(request.stateJws, ServerSigningKey, r.verifyState)
    case None => false
    case Some(state) =>
      && FindDeviceKey(state, device.kid).Some?
      && PairOf(FindDeviceKey(state, device.kid).value.jwsPublicKey) == device.pair
      && r.verifyDevice
  }

  lemma OuterDecodes(cfg: WorkerConfig, request: HsmWorkerRequest, r: Replies, device: Signer, outer: OuterRequest)
    requires Signed(outer, device) == Ok(request.outerRequestJws) && outer.serverKid == None
    ensures DecodeOuter(cfg, request, r).Ok? <==> cfg.legacyKeyMode && KnowsSigner(request, device, r)
    ensures DecodeOuter(cfg, request, r).Ok? ==> DecodeOuter(cfg, request, r).value.outerRequest == outer
    ensures KnowsSigner(request, device, r) && !cfg.legacyKeyMode ==>
              DecodeOuter(cfg, request, r) == Err(Upstream(ServerKidRequired))
  {
  }

  /** What every admitted request of this client was decoded to. */
  predicate DecodedAs(admitted: Result<WorkerInput, WorkerError>, op: OperationId, data: RequestData,
                      sessionId: Option<SessionId>, device: Signer)
  {
    && admitted.Ok?
    && var ctx := admitted.value.operation;
       && ctx.innerRequest == InnerRequest(1, op, Some(data))
       && ctx.sessionId == sessionId && ctx.deviceKid == device.kid && ctx.outerRequest.nonce == device.nonce
  }

  /** A PAKE request reaches its operation with its data unchanged exactly when the worker is in legacy key
      mode, knows the signer, and the operation is of the device class; outside that class it is refused. */
  lemma PakeRequestDecodes(cfg: WorkerConfig, cache: CacheMap, request: HsmWorkerRequest, r: Replies,
                           op: OperationId, data: RequestData, sessionId: Option<SessionId>, device: Signer)
    requires BuildPakeRequestJws(op, data, sessionId, device) == Ok(request.outerRequestJws)
    ensures var admitted := Admitted(cfg, cache, request, r);
      && (admitted.Ok? <==>
            cfg.legacyKeyMode && KnowsSigner(request, device, r) && r.decrypt && op.EncryptOption().Device?)
      && (admitted.Ok? ==> DecodedAs(admitted, op, data, sessionId, device))
      && (KnowsSigner(request, device, r) ==>
            && (!cfg.legacyKeyMode ==> admitted == Err(Upstream(ServerKidRequired)))
            && (cfg.legacyKeyMode && !op.EncryptOption().Device? ==> admitted == Err(Outer(InnerJweDecryptFailed))))
  {
    var jwe := Sealed(InnerRequest(1, op, Some(data)), ServerSealingKey, "device", device).value;
    OuterDecodes(cfg, request, r, device, OuterRequest(1, sessionId, None, Some(jwe), device.nonce));
  }

  /** The session key the worker has for an id at a time. */
  function KeyAt(cache: CacheMap, sessionId: SessionId, now: nat): Option<Bytes> {
    SessionKeyOf(Snapshot(cache, Some(sessionId), now))
  }

  /** A session request reaches its operation exactly when, besides, the worker has an active session of that
      id with the client's key, and the operation is of the session class. */
  lemma SessionRequestDecodes(cfg: WorkerConfig, cache: CacheMap, request: HsmWorkerRequest, r: Replies,
                              op: OperationId, data: RequestData, sessionId: SessionId, sessionKey: Bytes,
                              device: Signer)
    requires BuildSessionRequestJws(op, data, sessionId, sessionKey, device) == Ok(request.outerRequestJws)
    ensures var admitted, key := Admitted(cfg, cache, request, r), KeyAt(cache, sessionId, r.readAt);
      && (admitted.Ok? <==>
            cfg.legacyKeyMode && KnowsSigner(request, device, r) && r.decrypt && op.EncryptOption().Session?
            && key == Some(sessionKey))
      && (admitted.Ok? ==> DecodedAs(admitted, op, data, Some(sessionId), device))
      && (KnowsSigner(request, device, r) ==>
            && (!cfg.legacyKeyMode ==> admitted == Err(Upstream(ServerKidRequired)))
            && (cfg.legacyKeyMode && key == None ==> admitted == Err(Outer(SessionKeyMissing)))
            && (cfg.legacyKeyMode && key.Some? && (key.value != sessionKey || !op.EncryptOption().Session?) ==>
                  admitted == Err(Outer(InnerJweDecryptFailed))))
  {
    var jwe := Sealed(InnerRequest(1, op, Some(data)), SessionSealingKey(sessionKey), "session", device).value;
    OuterDecodes(cfg, request, r, device, OuterRequest(1, Some(sessionId), None, Some(jwe), device.nonce));
  }

  // === What the client parses ===

  lemma EncodedPayload(cfg: WorkerConfig, cache: CacheMap, ctx: OperationContext, response: ResponseContext,
                       outcome: OpOutcome, r: Replies)
    requires Finished(cfg, cache, ctx, response, outcome, r).result.Ok?
    ensures var reply := Finished(cfg, cache, ctx, response, outcome, r).result.value;
      && outcome.Ok? && InnerOf(reply).Some?
      && reply.outerResponseJws.value.payload.value.sessionId == outcome.value.sessionId
      && var inner := InnerOf(reply).value.plaintext;
         inner.Some? && inner.value.status == StatusOk && inner.value.data == Some(outcome.value.data)
  {
  }

  lemma ErrorPayload(cfg: WorkerConfig, requestId: string, e: ProcessError, r: Replies)
    requires BuildErrorResponse(cfg, requestId, e, r).Ok? && !e.error.Upstream?
    ensures var reply := BuildErrorResponse(cfg, requestId, e, r).value;
      && reply.outerResponseJws.Some? && reply.outerResponseJws.value.payload.Some?
      && reply.outerResponseJws.value.payload.value.sessionId == None
      && (InnerOf(reply).Some? ==>
            && InnerOf(reply).value.plaintext.Some?
            && InnerOf(reply).value.plaintext.value.status == StatusError
            && InnerOf(reply).value.plaintext.value.data == None)
  {
  }

  /** What a reply with an outer response carries: the operation's session id and data on success, neither
      on failure. */
  predicate Carries(reply: HsmWorkerResponse, p: Processed, ports: PortReplies) {
    && reply.outerResponseJws.Some? && reply.outerResponseJws.value.payload.Some?
    && var outer := reply.outerResponseJws.value.payload.value;
       if p.result.Ok? then
         && p.input.Some? && Dispatched(p.input.value, ports).Ok?
         && outer.sessionId == Dispatched(p.input.value, ports).value.sessionId
         && outer.innerJwe.Some? && outer.innerJwe.value.plaintext.Some?
         && outer.innerJwe.value.plaintext.value.status == StatusOk
         && outer.innerJwe.value.plaintext.value.data == Some(Dispatched(p.input.value, ports).value.data)
       else
         && outer.sessionId == None
         && (outer.innerJwe.Some? ==>
               && outer.innerJwe.value.plaintext.Some?
               && outer.innerJwe.value.plaintext.value.status == StatusError
               && outer.innerJwe.value.plaintext.value.data == None)
  }

  lemma ReplyCarries(cfg: WorkerConfig, cache: CacheMap, request: HsmWorkerRequest, r: Replies)
    ensures var p := Process(cfg, cache, request, r);
            var reply := Reply(cfg, request, p, r);
            reply.Ok? && reply.value.outerResponseJws.Some? ==> Carries(reply.value, p, r.ports)
  {
    var p := Process(cfg, cache, request, r);
    var reply := Reply(cfg, request, p, r);
    ProcessShape(cfg, cache, request, r);
    if reply.Ok? && reply.value.outerResponseJws.Some? {
      if p.result.Ok? {
        EncodedPayload(cfg, cache, p.input.value, ContextFor(p.input.value), Dispatched(p.input.value, r.ports), r);
      } else {
        ErrorAnswerFacts(cfg, request.requestId, p.result.error, r);
        ErrorPayload(cfg, request.requestId, p.result.error, r);
      }
    }
  }

  /** What the client should learn from a reply. */
  function Expected(p: Processed, ports: PortReplies): Parsed<ResponseData> {
    if p.result.Ok? && p.input.Some? && Dispatched(p.input.value, ports).Ok?
    then Parsed(Dispatched(p.input.value, ports).value.sessionId, StatusOk,
                Some(Dispatched(p.input.value, ports).value.data))
    else Parsed(None, StatusError, None)
  }

  lemma ParsesSession(reply: HsmWorkerResponse, p: Processed, ports: PortReplies, key: Bytes)
    requires Carries(reply, p, ports)
    requires InnerOf(reply).Some? ==> InnerOf(reply).value.sealedFor == SessionSealingKey(key)
    ensures UnwrapSessionResponse(reply.outerResponseJws.value, key, true) == Ok(Expected(p, ports))
  {
  }

  lemma ParsesPake(reply: HsmWorkerResponse, p: Processed, ports: PortReplies, pair: KeyPair)
    requires Carries(reply, p, ports)
    requires InnerOf(reply).Some? ==> InnerOf(reply).value.sealedFor == DeviceSealingKey(pair)
    ensures UnwrapPakeResponse(reply.outerResponseJws.value, pair, true) ==
            Ok(Parsed(Expected(p, ports).sessionId, Expected(p, ports).status, PakeBytes(Expected(p, ports).data)))
  {
  }

  /** There and back in a session: the client that built the request parses the worker's answer, with its own
      session key, to the session id, status and data of the operation it asked for. */
  lemma SessionRoundTrip(cfg: WorkerConfig, cache: CacheMap, request: HsmWorkerRequest, r: Replies,
                         op: OperationId, data: RequestData, sessionId: SessionId, sessionKey: Bytes, device: Signer)
    requires BuildSessionRequestJws(op, data, sessionId, sessionKey, device) == Ok(request.outerRequestJws)
    ensures var p := Process(cfg, cache, request, r);
            var reply := Reply(cfg, request, p, r);
      && (p.input.Some? ==> p.input.value.innerRequest == InnerRequest(1, op, Some(data)))
      && (reply.Ok? && reply.value.outerResponseJws.Some? ==>
            UnwrapSessionResponse(reply.value.outerResponseJws.value, sessionKey, true) == Ok(Expected(p, r.ports)))
  {
    var p := Process(cfg, cache, request, r);
    var reply := Reply(cfg, request, p, r);
    SessionRequestDecodes(cfg, cache, request, r, op, data, sessionId, sessionKey, device);
    ProcessShape(cfg, cache, request, r);
    ReplyCarries(cfg, cache, request, r);
    ReplyUnderItsKey(cfg, cache, request, r);
    if reply.Ok? && reply.value.outerResponseJws.Some? {
      if InnerOf(reply.value).Some? {
        InputOfAdmitted(cfg, cache, request, r);
      }
      ParsesSession(reply.value, p, r.ports, sessionKey);
    }
  }

  /** There and back before a session: the same for PAKE requests, parsed with the device's key pair. */
  lemma PakeRoundTrip(cfg: WorkerConfig, cache: CacheMap, request: HsmWorkerRequest, r: Replies,
                      op: OperationId, data: RequestData, sessionId: Option<SessionId>, device: Signer, pair: KeyPair)
    requires BuildPakeRequestJws(op, data, sessionId, device) == Ok(request.outerRequestJws)
    requires KnowsSigner(request, device, r) ==>
               PairOf(FindDeviceKey(request.stateJws.payload.value, device.kid).value.EffectiveJwePublicKey()) == pair
    ensures var p := Process(cfg, cache, request, r);
            var reply := Reply(cfg, request, p, r);
      && (p.input.Some? ==> p.input.value.innerRequest == InnerRequest(1, op, Some(data)))
      && (reply.Ok? && reply.value.outerResponseJws.Some? ==>
            var parsed := UnwrapPakeResponse(reply.value.outerResponseJws.value, pair, true);
            && parsed.Ok?
            && parsed.value.sessionId == Expected(p, r.ports).sessionId
            && parsed.value.status == Expected(p, r.ports).status
            && (forall bytes :: parsed.value.data == Some(bytes) <==>
                  Expected(p, r.ports).data == Some(PakeResponse(Some(bytes)))))
  {
    var p := Process(cfg, cache, request, r);
    var reply := Reply(cfg, request, p, r);
    PakeRequestDecodes(cfg, cache, request, r, op, data, sessionId, device);
    ProcessShape(cfg, cache, request, r);
    InputOfAdmitted(cfg, cache, request, r);
    ReplyCarries(cfg, cache, request, r);
    ReplyUnderItsKey(cfg, cache, request, r);
    if reply.Ok? && reply.value.outerResponseJws.Some? {
      ParsesPake(reply.value, p, r.ports, pair);
    }
  }

  // === Logging in ===

  /** What a committed transition leaves is what is read of its id until the time to live is over. */
  lemma CommitReads(cfg: WorkerConfig, cache: CacheMap, request: HsmWorkerRequest, r: Replies, later: nat)
    requires var p := Process(cfg, cache, request, r); p.result.Ok? && p.commit.Some?
    requires r.applyAt <= later < r.applyAt + SESSION_TTL
    ensures var p := Process(cfg, cache, request, r);
            var id := p.commit.value.id;
      && p.input.Some? && Dispatched(p.input.value, r.ports).Ok?
      && Dispatched(p.input.value, r.ports).value.sessionId == Some(id)
      && Dispatched(p.input.value, r.ports).value.sessionTransition == Some(p.commit.value.transition)
      && Accepts(Lookup(cache, id, r.applyAt), p.commit.value.transition)
      && Leaves(Lookup(cache, id, r.applyAt), p.commit.value.transition, Lookup(p.cache, id, later))
  {
    var p := Process(cfg, cache, request, r);
    var ctx := p.input.value;
    ProcessShape(cfg, cache, request, r);
    FinishedFacts(cfg, cache, ctx, ContextFor(ctx), Dispatched(ctx, r.ports), r);
    TransitionedExactly(cache, p.commit.value.id, p.commit.value.transition, r.applyAt);
  }

  lemma CommitIsMade(cfg: WorkerConfig, cache: CacheMap, request: HsmWorkerRequest, r: Replies)
    requires var p := Process(cfg, cache, request, r);
      && p.result.Ok? && p.input.Some?
      && (p.input.value.innerRequest.requestType.AuthenticateStart?
          || p.input.value.innerRequest.requestType.AuthenticateFinish?)
    ensures Process(cfg, cache, request, r).commit.Some?
    ensures ReadFrom(cfg, Process(cfg, cache, request, r).input.value, cache, request, r)
  {
    var ctx := Process(cfg, cache, request, r).input.value;
    ProcessShape(cfg, cache, request, r);
    FinishedFacts(cfg, cache, ctx, ContextFor(ctx), Dispatched(ctx, r.ports), r);
    ResultsExactly(ctx, r.ports);
  }

  /** A login that starts: the client is told the PAKE response and its session id, the worker keeps the pending
      state and the purpose under that id. */
  lemma LoginStarts(cfg: WorkerConfig, cache: CacheMap, request: HsmWorkerRequest, r: Replies, later: nat)
    requires var p := Process(cfg, cache, request, r);
      p.result.Ok? && p.input.Some? && p.input.value.innerRequest.requestType.AuthenticateStart?
    requires r.applyAt <= later < r.applyAt + SESSION_TTL
    ensures var p := Process(cfg, cache, request, r);
            var ctx := p.input.value;
      && HasPake(ctx) && GetPasswordFileEntry(ctx.state, ctx.deviceKid).Some?
      && var entry := GetPasswordFileEntry(ctx.state, ctx.deviceKid).value;
         var started := r.ports.authenticationStart(PakeDataOf(ctx), entry, ctx.deviceKid);
         && started.Ok?
         && Expected(p, r.ports) ==
              Parsed(Some(r.ports.freshId), StatusOk, Some(PakeResponse(Some(started.value.response))))
         && Lookup(p.cache, r.ports.freshId, later) ==
              Some(PendingAuth(PendingAuthData(started.value.pendingState,
                                               ctx.innerRequest.data.value.asPake.value.purpose)))
  {
    CommitIsMade(cfg, cache, request, r);
    CommitReads(cfg, cache, request, r, later);
    ResultsExactly(Process(cfg, cache, request, r).input.value, r.ports);
  }

  /** A login that finishes: the session is active under the key the PAKE library derived from the request and the
      pending login, with the pending purpose and nothing done yet. */
  lemma LoginFinishes(cfg: WorkerConfig, cache: CacheMap, request: HsmWorkerRequest, r: Replies, later: nat)
    requires var p := Process(cfg, cache, request, r);
      p.result.Ok? && p.input.Some? && p.input.value.innerRequest.requestType.AuthenticateFinish?
    requires r.applyAt <= later < r.applyAt + SESSION_TTL
    ensures var p := Process(cfg, cache, request, r);
            var ctx := p.input.value;
      && HasPake(ctx) && ctx.sessionId.Some? && ctx.sessionState.Some? && ctx.sessionState.value.PendingAuth?
      && var pending := ctx.sessionState.value.pending;
         var key := r.ports.authenticationFinish(PakeDataOf(ctx), pending.serverLogin, ctx.deviceKid);
         && key.Ok?
         && Lookup(p.cache, ctx.sessionId.value, later) ==
              Some(Active(SessionData(key.value, pending.purpose, None, false)))
  {
    CommitIsMade(cfg, cache, request, r);
    CommitReads(cfg, cache, request, r, later);
    ResultsExactly(Process(cfg, cache, request, r).input.value, r.ports);
  }

  /** And the client's session requests are admitted under exactly that key. */
  lemma LoginKeyOpens(cfg: WorkerConfig, cache: CacheMap, login: HsmWorkerRequest, r: Replies,
                      request: HsmWorkerRequest, r': Replies, op: OperationId, data: RequestData, sessionKey: Bytes,
                      device: Signer)
    requires var p := Process(cfg, cache, login, r);
      && p.result.Ok? && p.input.Some? && p.input.value.innerRequest.requestType.AuthenticateFinish?
      && p.input.value.sessionId.Some?
      && BuildSessionRequestJws(op, data, p.input.value.sessionId.value, sessionKey, device) ==
           Ok(request.outerRequestJws)
    requires r.applyAt <= r'.readAt < r.applyAt + SESSION_TTL
    ensures var p := Process(cfg, cache, login, r);
            var ctx := p.input.value;
      && HasPake(ctx) && ctx.sessionState.Some? && ctx.sessionState.value.PendingAuth?
      && var login := ctx.sessionState.value.pending.serverLogin;
         Admitted(cfg, p.cache, request, r').Ok? <==>
           && cfg.legacyKeyMode && KnowsSigner(request, device, r') && r'.decrypt && op.EncryptOption().Session?
           && r.ports.authenticationFinish(PakeDataOf(ctx), login, ctx.deviceKid) == Ok(sessionKey)
  {
    var p := Process(cfg, cache, login, r);
    LoginFinishes(cfg, cache, login, r, r'.readAt);
    SessionRequestDecodes(cfg, p.cache, request, r', op, data, p.input.value.sessionId.value, sessionKey, device);
  }
}
