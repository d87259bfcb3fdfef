/** The operation handlers: each decides from the request, the device state and a session snapshot. */
module Operations {
  import opened Wrappers
  import opened Protocol
  import opened DeviceState
  import opened Sessions

  datatype PakeError =
    | InvalidPasswordFile | InvalidRequest | AuthStartFailed | AuthFinishFailed | RegistrationStartFailed

  datatype RegistrationResult = RegistrationResult(passwordFile: Bytes, opaqueDomainSeparator: string)

  datatype AuthenticationStart = AuthenticationStart(response: Bytes, pendingState: Bytes)

  /** What the clock and the id generator answer while one request is handled, and how the PAKE and HSM ports
      answer whatever they are asked. */
  datatype PortReplies = PortReplies(
    freshId: SessionId,
    createdAt: string,
    registrationStart: (Bytes, string) -> Result<Bytes, PakeError>,
    registrationFinish: Bytes -> Result<RegistrationResult, PakeError>,
    authenticationStart: (Bytes, PasswordFileEntry, string) -> Result<AuthenticationStart, PakeError>,
    authenticationFinish: (Bytes, Bytes, string) -> Result<Bytes, PakeError>,
    generateKey: Curve -> Option<HsmKey>,
    sign: (HsmKey, Bytes) -> Option<Bytes>,
    isSignature: Bytes -> bool,
    toValueOk: bool)

  datatype OperationContext = OperationContext(
    requestId: string,
    state: StateRecord,
    outerRequest: OuterRequest,
    innerRequest: InnerRequest,
    sessionId: Option<SessionId>,
    deviceKid: string,
    sessionState: Option<SessionState>)

  datatype OperationResult = OperationResult(
    state: Option<StateRecord>,
    data: ResponseData,
    sessionId: Option<SessionId>,
    sessionTransition: Option<SessionTransition>)

  type OpOutcome = Result<OperationResult, ServiceRequestError>

  function FromPakeError(e: PakeError): ServiceRequestError {
    match e
    case InvalidPasswordFile => InvalidSerializedPasswordFile
    case InvalidRequest => InvalidAuthenticateRequest
    case AuthStartFailed => ServerLoginStartFailed
    case AuthFinishFailed => ServerLoginFinishFailed
    case RegistrationStartFailed => ServerRegistrationStartFailed
  }

  function PakeRequestOf(request: InnerRequest): Result<PakeRequest, ServiceRequestError> {
    match request.data
    case None => Err(InvalidServiceRequestFormat)
    case Some(data) => if data.asPake.Some? then Ok(data.asPake.value) else Err(InvalidPakeRequest)
  }

  /** Serialising a payload to a JSON value may fail at will. */
  function Payload(data: ResponseData, ports: PortReplies): Result<ResponseData, ServiceRequestError> {
    if ports.toValueOk then Ok(data) else Err(UnknownRequestError)
  }

  // === Authentication ===

  function DoAuthenticateStart(ctx: OperationContext, ports: PortReplies): OpOutcome {
    var pake :- PakeRequestOf(ctx.innerRequest);
    var entry := GetPasswordFileEntry(ctx.state, ctx.deviceKid);
    if entry.None? then Err(UnknownClient)
    else
      var started :- ports.authenticationStart(pake.data, entry.value, ctx.deviceKid).MapErr(FromPakeError);
      var payload :- Payload(PakeResponse(Some(started.response)), ports);
      Ok(OperationResult(None, payload, Some(ports.freshId),
                         Some(CreatePendingAuth(started.pendingState, pake.purpose))))
  }

  function DoAuthenticateFinish(ctx: OperationContext, ports: PortReplies): OpOutcome {
    var pake :- PakeRequestOf(ctx.innerRequest);
    if ctx.sessionId.None? then Err(ServiceRequestError.UnknownSession)
    else
      match ctx.sessionState
      case Some(PendingAuth(pending)) =>
        var sessionKey :-
          ports.authenticationFinish(pake.data, pending.serverLogin, ctx.deviceKid).MapErr(FromPakeError);
        var payload :- Payload(PakeResponse(None), ports);
        Ok(OperationResult(None, payload, ctx.sessionId, Some(Authenticate(sessionKey))))
      case _ => Err(ServiceRequestError.UnknownSession)
  }

  // === Registration ===

  /** The authorization code check shared by both registration steps. */
  function CheckAuthorization(ctx: OperationContext, pake: PakeRequest): Result<(), ServiceRequestError> {
    if pake.authorization.None? then Err(InvalidAuthorizationCode)
    else
      match FindDeviceKey(ctx.state, ctx.deviceKid)
      case None => Err(UnknownKey)
      case Some(device) =>
        if device.devAuthorizationCode != pake.authorization then Err(InvalidAuthorizationCode) else Ok(())
  }

  function DoRegisterStart(ctx: OperationContext, ports: PortReplies): OpOutcome {
    var pake :- PakeRequestOf(ctx.innerRequest);
    var _ :- CheckAuthorization(ctx, pake);
    var response :- ports.registrationStart(pake.data, ctx.deviceKid).MapErr(FromPakeError);
    var payload :- Payload(PakeResponse(Some(response)), ports);
    Ok(OperationResult(None, payload, ctx.sessionId, None))
  }

  /** What finishing a registration with the request's data gives. */
  function RegistrationOf(ctx: OperationContext, ports: PortReplies): Result<RegistrationResult, PakeError> {
    match ctx.innerRequest.data
    case Some(data) => if data.asPake.Some? then ports.registrationFinish(data.asPake.value.data)
                       else Err(InvalidRequest)
    case None => Err(InvalidRequest)
  }

  function NewEntry(r: RegistrationResult, ports: PortReplies): PasswordFileEntry {
    PasswordFileEntry(r.passwordFile, r.opaqueDomainSeparator, ports.createdAt)
  }

  function DoRegisterFinish(ctx: OperationContext, ports: PortReplies): OpOutcome {
    var pake :- PakeRequestOf(ctx.innerRequest);
    var _ :- CheckAuthorization(ctx, pake);
    var registered :- ports.registrationFinish(pake.data).MapErr(FromPakeError);
    var state :- WithPasswordFile(ctx.state, ctx.deviceKid, NewEntry(registered, ports), pake.authorization);
    var payload :- Payload(PakeResponse(None), ports);
    Ok(OperationResult(Some(state), payload, ctx.sessionId, None))
  }

  method RegisterFinish(ctx: OperationContext, ports: PortReplies) returns (r: OpOutcome)
    ensures r == DoRegisterFinish(ctx, ports)
  {
    var pake :- PakeRequestOf(ctx.innerRequest);
    var _ :- CheckAuthorization(ctx, pake);
    var registered :- ports.registrationFinish(pake.data).MapErr(FromPakeError);
    var newState := new DeviceHsmState(ctx.state);
    var _ :- newState.SetPasswordFile(ctx.deviceKid, NewEntry(registered, ports), pake.authorization);
    var payload :- Payload(PakeResponse(None), ports);
    r := Ok(OperationResult(Some(newState.Record()), payload, ctx.sessionId, None));
  }

  // === PIN change ===

  function DoPinChangeStart(ctx: OperationContext, ports: PortReplies): OpOutcome {
    var pake :- PakeRequestOf(ctx.innerRequest);
    if ctx.sessionId.None? then Err(ServiceRequestError.UnknownSession)
    else
      var response :- ports.registrationStart(pake.data, ctx.deviceKid).MapErr(FromPakeError);
      var payload :- Payload(PakeResponse(Some(response)), ports);
      Ok(OperationResult(None, payload, ctx.sessionId, Some(BeginChangingPin)))
  }

  predicate IsChangingPin(s: Option<SessionState>) {
    s.Some? && s.value.Active? && s.value.data.operation == Some(ChangingPin)
  }

  function DoPinChangeFinish(ctx: OperationContext, ports: PortReplies): OpOutcome {
    var pake :- PakeRequestOf(ctx.innerRequest);
    if !IsChangingPin(ctx.sessionState) then Err(InvalidOperation)
    else
      var registered :- ports.registrationFinish(pake.data).MapErr(FromPakeError);
      var state :- WithPasswordFile(ctx.state, ctx.deviceKid, NewEntry(registered, ports), None);
      var payload :- Payload(PakeResponse(None), ports);
      Ok(OperationResult(Some(state), payload, ctx.sessionId, Some(End)))
  }

  method PinChangeFinish(ctx: OperationContext, ports: PortReplies) returns (r: OpOutcome)
    ensures r == DoPinChangeFinish(ctx, ports)
  {
    var pake :- PakeRequestOf(ctx.innerRequest);
    if !IsChangingPin(ctx.sessionState) {
      return Err(InvalidOperation);
    }
    var registered :- ports.registrationFinish(pake.data).MapErr(FromPakeError);
    var newState := new DeviceHsmState(ctx.state);
    var _ :- newState.SetPasswordFile(ctx.deviceKid, NewEntry(registered, ports), None);
    var payload :- Payload(PakeResponse(None), ports);
    r := Ok(OperationResult(Some(newState.Record()), payload, ctx.sessionId, Some(End)));
  }

  // === HSM ===

  /** The snapshot says the session has used its one HSM operation. */
  predicate HsmOperationUsed(s: Option<SessionState>) {
    s.Some? && s.value.Active? && s.value.data.hasPerformedHsmOperation
  }

  function DoSign(ctx: OperationContext, ports: PortReplies): OpOutcome {
    if HsmOperationUsed(ctx.sessionState) then Err(InvalidOperation)
    else if ctx.innerRequest.data.None? || ctx.innerRequest.data.value.asSign.None?
         then Err(InvalidServiceRequestFormat)
    else
      var request := ctx.innerRequest.data.value.asSign.value;
      match FindHsmKey(ctx.state, request.hsmKid)
      case None => Err(UnknownKey)
      case Some(key) =>
        match ports.sign(key, request.message)
        case None => Err(UnknownRequestError)
        case Some(signature) =>
          if !ports.isSignature(signature) then Err(UnknownRequestError)
          else
            var payload :- Payload(SignatureResponse(signature), ports);
            Ok(OperationResult(None, payload, ctx.sessionId, Some(MarkHsmOperationPerformed)))
  }

  /** The key the HSM makes for the curve the request names. */
  function GeneratedBy(ctx: OperationContext, ports: PortReplies): Option<HsmKey> {
    match ctx.innerRequest.data
    case Some(data) => if data.asCreateKey.Some? then ports.generateKey(data.asCreateKey.value) else None
    case None => None
  }

  function DoGenerateKey(ctx: OperationContext, ports: PortReplies): OpOutcome {
    if HsmOperationUsed(ctx.sessionState) then Err(InvalidOperation)
    else if ctx.innerRequest.data.None? || ctx.innerRequest.data.value.asCreateKey.None?
         then Err(InvalidServiceRequestFormat)
    else if GeneratedBy(ctx, ports).None? then Err(UnknownRequestError)
    else
      var key := GeneratedBy(ctx, ports).value;
      var state :- WithHsmKey(ctx.state, key);
      var payload :- Payload(CreateKeyResponse(key.publicKeyJwk), ports);
      Ok(OperationResult(Some(state), payload, ctx.sessionId, Some(MarkHsmOperationPerformed)))
  }

  method GenerateKey(ctx: OperationContext, ports: PortReplies) returns (r: OpOutcome)
    ensures r == DoGenerateKey(ctx, ports)
  {
    if HsmOperationUsed(ctx.sessionState) {
      return Err(InvalidOperation);
    }
    if ctx.innerRequest.data.None? || ctx.innerRequest.data.value.asCreateKey.None? {
      return Err(InvalidServiceRequestFormat);
    }
    var generated := ports.generateKey(ctx.innerRequest.data.value.asCreateKey.value);
    if generated.None? {
      return Err(UnknownRequestError);
    }
    var key := generated.value;
    var newState := new DeviceHsmState(ctx.state);
    var _ :- newState.AddHsmKey(key);
    var payload :- Payload(CreateKeyResponse(key.publicKeyJwk), ports);
    r := Ok(OperationResult(Some(newState.Record()), payload, ctx.sessionId, Some(MarkHsmOperationPerformed)));
  }

  function DoDeleteKey(ctx: OperationContext, ports: PortReplies): OpOutcome {
    if HsmOperationUsed(ctx.sessionState) then Err(InvalidOperation)
    else if ctx.innerRequest.data.None? || ctx.innerRequest.data.value.asDeleteKey.None?
         then Err(InvalidServiceRequestFormat)
    else
      var kid := ctx.innerRequest.data.value.asDeleteKey.value;
      var state :- WithoutHsmKey(ctx.state, kid);
      var payload :- Payload(DeleteKeyResponse(kid), ports);
      Ok(OperationResult(Some(state), payload, ctx.sessionId, Some(MarkHsmOperationPerformed)))
  }

  method DeleteKey(ctx: OperationContext, ports: PortReplies) returns (r: OpOutcome)
    ensures r == DoDeleteKey(ctx, ports)
  {
    if HsmOperationUsed(ctx.sessionState) {
      return Err(InvalidOperation);
    }
    if ctx.innerRequest.data.None? || ctx.innerRequest.data.value.asDeleteKey.None? {
      return Err(InvalidServiceRequestFormat);
    }
    var kid := ctx.innerRequest.data.value.asDeleteKey.value;
    var newState := new DeviceHsmState(ctx.state);
    var _ :- newState.RemoveHsmKey(kid);
    var payload :- Payload(DeleteKeyResponse(kid), ports);
    r := Ok(OperationResult(Some(newState.Record()), payload, ctx.sessionId, Some(MarkHsmOperationPerformed)));
  }

  function KeyInfos(keys: seq<HsmKey>): seq<KeyInfo> {
    seq(|keys|, i requires 0 <= i < |keys| => KeyInfo(Some(keys[i].createdAt), keys[i].publicKeyJwk))
  }

  function DoListKeys(ctx: OperationContext, ports: PortReplies): OpOutcome {
    var payload :- Payload(ListKeysResponse(KeyInfos(ctx.state.hsmKeys)), ports);
    Ok(OperationResult(None, payload, ctx.sessionId, None))
  }

  // === Session end ===

  function DoEndSession(ctx: OperationContext, ports: PortReplies): OpOutcome {
    if ctx.sessionId.None? then Err(ServiceRequestError.UnknownSession)
    else
      var payload :- Payload(PakeResponse(None), ports);
      Ok(OperationResult(None, payload, ctx.sessionId, Some(End)))
  }

  // === Dispatch ===

  function Dispatched(ctx: OperationContext, ports: PortReplies): OpOutcome {
    match ctx.innerRequest.requestType
    case AuthenticateStart => DoAuthenticateStart(ctx, ports)
    case AuthenticateFinish => DoAuthenticateFinish(ctx, ports)
    case RegisterStart => DoRegisterStart(ctx, ports)
    case RegisterFinish => DoRegisterFinish(ctx, ports)
    case ChangePinStart => DoPinChangeStart(ctx, ports)
    case ChangePinFinish => DoPinChangeFinish(ctx, ports)
    case HsmSign => DoSign(ctx, ports)
    case HsmGenerateKey => DoGenerateKey(ctx, ports)
    case HsmDeleteKey => DoDeleteKey(ctx, ports)
    case HsmListKeys => DoListKeys(ctx, ports)
    case EndSession => DoEndSession(ctx, ports)
    case HsmEcdh | Store | Retrieve | Log | GetLog | Info => Err(UnknownRequestError)
  }

  method Dispatch(ctx: OperationContext, ports: PortReplies) returns (r: OpOutcome)
    ensures r == Dispatched(ctx, ports)
  {
    match ctx.innerRequest.requestType {
      case RegisterFinish => r := RegisterFinish(ctx, ports);
      case ChangePinFinish => r := PinChangeFinish(ctx, ports);
      case HsmGenerateKey => r := GenerateKey(ctx, ports);
      case HsmDeleteKey => r := DeleteKey(ctx, ports);
      case _ => r := Dispatched(ctx, ports);
    }
  }

  // === What a success means, operation by operation ===

  /** The transition a successful operation asks for is fixed by its kind. */
  lemma TransitionOf(ctx: OperationContext, ports: PortReplies)
    requires Dispatched(ctx, ports).Ok?
    ensures var op, t := ctx.innerRequest.requestType, Dispatched(ctx, ports).value.sessionTransition;
      && (op.HsmMutating() <==> t == Some(MarkHsmOperationPerformed))
      && (op.AuthenticateStart? <==> t.Some? && t.value.CreatePendingAuth?)
      && (op.AuthenticateFinish? <==> t.Some? && t.value.Authenticate?)
      && (op.ChangePinStart? <==> t == Some(BeginChangingPin))
      && (op.ChangePinFinish? || op.EndSession? <==> t == Some(End))
    ensures ctx.innerRequest.requestType.AuthenticateStart?
      ==> Dispatched(ctx, ports).value.sessionId == Some(ports.freshId)
    ensures !ctx.innerRequest.requestType.AuthenticateStart?
      ==> Dispatched(ctx, ports).value.sessionId == ctx.sessionId
  {
  }

  /** One entry per key, in order, with that key's own public key and creation time. */
  predicate Lists(infos: seq<KeyInfo>, keys: seq<HsmKey>) {
    && |infos| == |keys|
    && forall i :: 0 <= i < |keys| ==>
         infos[i].publicKey == keys[i].publicKeyJwk && infos[i].createdAt == Some(keys[i].createdAt)
  }

  /** What each successful operation answers, hands on and keeps, field by field. */
  lemma ResultsExactly(ctx: OperationContext, ports: PortReplies)
    requires Dispatched(ctx, ports).Ok?
    ensures var result := Dispatched(ctx, ports).value;
      match ctx.innerRequest.requestType
      case AuthenticateStart =>
        && HasPake(ctx) && GetPasswordFileEntry(ctx.state, ctx.deviceKid).Some?
        && var entry := GetPasswordFileEntry(ctx.state, ctx.deviceKid).value;
           var started := ports.authenticationStart(PakeDataOf(ctx), entry, ctx.deviceKid);
           && started.Ok?
           && result.data == PakeResponse(Some(started.value.response)) && result.sessionId == Some(ports.freshId)
           && result.sessionTransition
                == Some(CreatePendingAuth(started.value.pendingState, ctx.innerRequest.data.value.asPake.value.purpose))
           && result.state == None
      case AuthenticateFinish =>
        && HasPake(ctx) && ctx.sessionState.Some? && ctx.sessionState.value.PendingAuth?
        && var login := ctx.sessionState.value.pending.serverLogin;
           var key := ports.authenticationFinish(PakeDataOf(ctx), login, ctx.deviceKid);
           && key.Ok?
           && result == OperationResult(None, PakeResponse(None), ctx.sessionId, Some(Authenticate(key.value)))
      case RegisterStart =>
        && HasPake(ctx) && ports.registrationStart(PakeDataOf(ctx), ctx.deviceKid).Ok?
        && var response := ports.registrationStart(PakeDataOf(ctx), ctx.deviceKid).value;
           result == OperationResult(None, PakeResponse(Some(response)), ctx.sessionId, None)
      case ChangePinStart =>
        && HasPake(ctx) && ports.registrationStart(PakeDataOf(ctx), ctx.deviceKid).Ok?
        && var response := ports.registrationStart(PakeDataOf(ctx), ctx.deviceKid).value;
           result == OperationResult(None, PakeResponse(Some(response)), ctx.sessionId, Some(BeginChangingPin))
      case RegisterFinish =>
        result.data == PakeResponse(None) && result.sessionId == ctx.sessionId && result.sessionTransition == None
      case ChangePinFinish =>
        result.data == PakeResponse(None) && result.sessionId == ctx.sessionId && result.sessionTransition == Some(End)
      case EndSession => result == OperationResult(None, PakeResponse(None), ctx.sessionId, Some(End))
      case HsmListKeys =>
        && result.data.ListKeysResponse? && Lists(result.data.keyInfo, ctx.state.hsmKeys)
        && result.sessionId == ctx.sessionId && result.sessionTransition == None && result.state == None
      case _ => ctx.innerRequest.requestType.HsmMutating()
  {
  }

  /** The same for the operations on an HSM key. */
  lemma HsmResultsExactly(ctx: OperationContext, ports: PortReplies)
    requires Dispatched(ctx, ports).Ok? && ctx.innerRequest.requestType.HsmMutating()
    ensures var op, data, result := ctx.innerRequest.requestType, ctx.innerRequest.data, Dispatched(ctx, ports).value;
      && data.Some? && result.sessionId == ctx.sessionId && result.sessionTransition == Some(MarkHsmOperationPerformed)
      && (op.HsmSign? ==>
            && result.state == None && data.value.asSign.Some?
            && FindHsmKey(ctx.state, data.value.asSign.value.hsmKid).Some?
            && var key := FindHsmKey(ctx.state, data.value.asSign.value.hsmKid).value;
               var signature := ports.sign(key, data.value.asSign.value.message);
               signature.Some? && ports.isSignature(signature.value)
               && result.data == SignatureResponse(signature.value))
      && (op.HsmGenerateKey? ==>
            && data.value.asCreateKey.Some? && ports.generateKey(data.value.asCreateKey.value).Some?
            && var key := ports.generateKey(data.value.asCreateKey.value).value;
               && result.data == CreateKeyResponse(key.publicKeyJwk)
               && result.state == Some(ctx.state.(hsmKeys := ctx.state.hsmKeys + [key])))
      && (op.HsmDeleteKey? ==>
            && data.value.asDeleteKey.Some? && result.state.Some?
            && result.data == DeleteKeyResponse(data.value.asDeleteKey.value))
  {
  }

  /** The password file a registration or PIN change leaves: the PAKE library's, with its separator, stamped now. */
  lemma NewPasswordFile(ctx: OperationContext, ports: PortReplies)
    requires Dispatched(ctx, ports).Ok?
    requires ctx.innerRequest.requestType.RegisterFinish? || ctx.innerRequest.requestType.ChangePinFinish?
    ensures && HasPake(ctx) && Dispatched(ctx, ports).value.state.Some?
            && ports.registrationFinish(PakeDataOf(ctx)).Ok?
            && var registered := ports.registrationFinish(PakeDataOf(ctx)).value;
               var latest := GetPasswordFileEntry(Dispatched(ctx, ports).value.state.value, ctx.deviceKid);
               && latest.Some? && latest.value.passwordFile == registered.passwordFile
               && latest.value.opaqueDomainSeparator == registered.opaqueDomainSeparator
               && latest.value.createdAt == ports.createdAt
  {
    var entry := NewEntry(RegistrationOf(ctx, ports).value, ports);
    var code := if ctx.innerRequest.requestType.RegisterFinish?
                then ctx.innerRequest.data.value.asPake.value.authorization else None;
    SetPasswordFileEvolves(ctx.state, ctx.deviceKid, entry, code);
  }

  /** How the PAKE library's errors are named to the client. */
  predicate Named(e: PakeError, error: ServiceRequestError) {
    match error
    case InvalidSerializedPasswordFile => e.InvalidPasswordFile?
    case InvalidAuthenticateRequest => e.InvalidRequest?
    case ServerLoginStartFailed => e.AuthStartFailed?
    case ServerLoginFinishFailed => e.AuthFinishFailed?
    case ServerRegistrationStartFailed => e.RegistrationStartFailed?
    case _ => false
  }

  predicate DataMissing(ctx: OperationContext, error: ServiceRequestError) {
    if ctx.innerRequest.data.None? then error == InvalidServiceRequestFormat
    else ctx.innerRequest.data.value.asPake.None? && error == InvalidPakeRequest
  }

  /** The one-shot code is not there, its device is not, or it is another one. */
  predicate CodeRefused(ctx: OperationContext, error: ServiceRequestError) {
    && HasPake(ctx)
    && var code := ctx.innerRequest.data.value.asPake.value.authorization;
       if code.Some? && FindDeviceKey(ctx.state, ctx.deviceKid).None? then error == UnknownKey
       else
         && (code.None? || FindDeviceKey(ctx.state, ctx.deviceKid).value.devAuthorizationCode != code)
         && error == InvalidAuthorizationCode
  }

  /** The error of every refused PAKE operation, by the first check that fails. */
  lemma PakeErrorsExactly(ctx: OperationContext, ports: PortReplies)
    requires Dispatched(ctx, ports).Err?
    ensures var error := Dispatched(ctx, ports).error;
      match ctx.innerRequest.requestType
      case AuthenticateStart =>
        || DataMissing(ctx, error)
        || (HasPake(ctx) && GetPasswordFileEntry(ctx.state, ctx.deviceKid).None? && error == UnknownClient)
        || (HasPake(ctx) && GetPasswordFileEntry(ctx.state, ctx.deviceKid).Some?
            && var started := ports.authenticationStart(PakeDataOf(ctx),
                                                        GetPasswordFileEntry(ctx.state, ctx.deviceKid).value,
                                                        ctx.deviceKid);
               if started.Err? then Named(started.error, error) else !ports.toValueOk && error == UnknownRequestError)
      case AuthenticateFinish =>
        || DataMissing(ctx, error)
        || (HasPake(ctx) && error == ServiceRequestError.UnknownSession
            && (ctx.sessionId.None? || ctx.sessionState.None? || !ctx.sessionState.value.PendingAuth?))
        || (HasPake(ctx) && ctx.sessionId.Some? && ctx.sessionState.Some? && ctx.sessionState.value.PendingAuth?
            && var key := ports.authenticationFinish(PakeDataOf(ctx), ctx.sessionState.value.pending.serverLogin,
                                                     ctx.deviceKid);
               if key.Err? then Named(key.error, error) else !ports.toValueOk && error == UnknownRequestError)
      case RegisterStart =>
        || DataMissing(ctx, error) || CodeRefused(ctx, error)
        || (BringsTheCode(ctx)
            && var response := ports.registrationStart(PakeDataOf(ctx), ctx.deviceKid);
               if response.Err? then Named(response.error, error) else !ports.toValueOk && error == UnknownRequestError)
      case RegisterFinish =>
        || DataMissing(ctx, error) || CodeRefused(ctx, error)
        || (BringsTheCode(ctx)
            && var registered := ports.registrationFinish(PakeDataOf(ctx));
               if registered.Err? then Named(registered.error, error)
               else !ports.toValueOk && error == UnknownRequestError)
      case ChangePinStart =>
        || DataMissing(ctx, error)
        || (HasPake(ctx) && ctx.sessionId.None? && error == ServiceRequestError.UnknownSession)
        || (HasPake(ctx) && ctx.sessionId.Some?
            && var response := ports.registrationStart(PakeDataOf(ctx), ctx.deviceKid);
               if response.Err? then Named(response.error, error) else !ports.toValueOk && error == UnknownRequestError)
      case ChangePinFinish =>
        || DataMissing(ctx, error)
        || (HasPake(ctx) && !IsChangingPin(ctx.sessionState) && error == InvalidOperation)
        || (HasPake(ctx) && IsChangingPin(ctx.sessionState)
            && var registered := ports.registrationFinish(PakeDataOf(ctx));
               if registered.Err? then Named(registered.error, error)
               else if FindDeviceKey(ctx.state, ctx.deviceKid).None? then error == UnknownClient
               else !ports.toValueOk && error == UnknownRequestError)
      case EndSession =>
        if ctx.sessionId.None? then error == ServiceRequestError.UnknownSession
        else !ports.toValueOk && error == UnknownRequestError
      case _ => true
  {
  }

  /** And of every other refused operation. */
  lemma HsmErrorsExactly(ctx: OperationContext, ports: PortReplies)
    requires Dispatched(ctx, ports).Err?
    ensures var error, data := Dispatched(ctx, ports).error, ctx.innerRequest.data;
      match ctx.innerRequest.requestType
      case HsmSign =>
        if HsmOperationUsed(ctx.sessionState) then error == InvalidOperation
        else if data.None? || data.value.asSign.None? then error == InvalidServiceRequestFormat
        else if FindHsmKey(ctx.state, data.value.asSign.value.hsmKid).None? then error == UnknownKey
        else error == UnknownRequestError
      case HsmGenerateKey =>
        if HsmOperationUsed(ctx.sessionState) then error == InvalidOperation
        else if data.None? || data.value.asCreateKey.None? then error == InvalidServiceRequestFormat
        else
          (match ports.generateKey(data.value.asCreateKey.value)
           case None => error == UnknownRequestError
           case Some(key) =>
             if key.Kid() == "" then error == InvalidPublicKey
             else if FindHsmKey(ctx.state, key.Kid()).Some? then error == DuplicateKey
             else error == UnknownRequestError)
      case HsmDeleteKey =>
        if HsmOperationUsed(ctx.sessionState) then error == InvalidOperation
        else if data.None? || data.value.asDeleteKey.None? then error == InvalidServiceRequestFormat
        else if FindHsmKey(ctx.state, data.value.asDeleteKey.value).None? then error == HsmKeyNotFound
        else error == UnknownRequestError
      case _ => true
    ensures ctx.innerRequest.requestType in {HsmEcdh, Store, Retrieve, OperationId.Log, GetLog, Info, HsmListKeys} ==>
              Dispatched(ctx, ports).error == UnknownRequestError
  {
  }

  /** A session that has used its HSM operation, or is not changing its PIN, is told so before any port is asked. */
  lemma SnapshotGuards(ctx: OperationContext, ports: PortReplies)
    requires Dispatched(ctx, ports).Ok?
    ensures ctx.innerRequest.requestType.HsmMutating() ==> !HsmOperationUsed(ctx.sessionState)
    ensures ctx.innerRequest.requestType.ChangePinFinish? ==> IsChangingPin(ctx.sessionState)
    ensures ctx.innerRequest.requestType.AuthenticateFinish? ==>
              ctx.sessionState.Some? && ctx.sessionState.value.PendingAuth?
  {
  }

  /** What the two guards look at: an active session's flag, and its operation; a pending or missing session passes
      the first and fails the second. */
  lemma GuardsExactly(data: SessionData, pending: PendingAuthData)
    ensures HsmOperationUsed(Some(Active(data))) <==> data.hasPerformedHsmOperation
    ensures IsChangingPin(Some(Active(data))) <==> data.operation == Some(ChangingPin)
    ensures !HsmOperationUsed(Some(PendingAuth(pending))) && !HsmOperationUsed(None)
    ensures !IsChangingPin(Some(PendingAuth(pending))) && !IsChangingPin(None)
  {
  }

  predicate HasPake(ctx: OperationContext) {
    ctx.innerRequest.data.Some? && ctx.innerRequest.data.value.asPake.Some?
  }

  function PakeDataOf(ctx: OperationContext): Bytes
    requires HasPake(ctx)
  {
    ctx.innerRequest.data.value.asPake.value.data
  }

  /** The signature by the key the request names, over its message. */
  function SignatureOf(ctx: OperationContext, ports: PortReplies): Option<Bytes>
    requires ctx.innerRequest.data.Some? && ctx.innerRequest.data.value.asSign.Some?
    requires FindHsmKey(ctx.state, ctx.innerRequest.data.value.asSign.value.hsmKid).Some?
  {
    var request := ctx.innerRequest.data.value.asSign.value;
    ports.sign(FindHsmKey(ctx.state, request.hsmKid).value, request.message)
  }

  /** The request names the one-shot code the device entry still has. */
  predicate BringsTheCode(ctx: OperationContext) {
    && HasPake(ctx) && ctx.innerRequest.data.value.asPake.value.authorization.Some?
    && FindDeviceKey(ctx.state, ctx.deviceKid).Some?
    && FindDeviceKey(ctx.state, ctx.deviceKid).value.devAuthorizationCode ==
         ctx.innerRequest.data.value.asPake.value.authorization
  }

  /** When exactly each operation succeeds, given what the snapshot, the state and the ports say. */
  predicate MaySucceed(ctx: OperationContext, ports: PortReplies) {
    match ctx.innerRequest.requestType
    case AuthenticateStart =>
      && HasPake(ctx) && GetPasswordFileEntry(ctx.state, ctx.deviceKid).Some?
      && ports.authenticationStart(PakeDataOf(ctx), GetPasswordFileEntry(ctx.state, ctx.deviceKid).value,
                                   ctx.deviceKid).Ok?
    case AuthenticateFinish =>
      && HasPake(ctx) && ctx.sessionId.Some?
      && ctx.sessionState.Some? && ctx.sessionState.value.PendingAuth?
      && ports.authenticationFinish(PakeDataOf(ctx), ctx.sessionState.value.pending.serverLogin, ctx.deviceKid).Ok?
    case RegisterStart => BringsTheCode(ctx) && ports.registrationStart(PakeDataOf(ctx), ctx.deviceKid).Ok?
    case RegisterFinish => BringsTheCode(ctx) && RegistrationOf(ctx, ports).Ok?
    case ChangePinStart =>
      HasPake(ctx) && ctx.sessionId.Some? && ports.registrationStart(PakeDataOf(ctx), ctx.deviceKid).Ok?
    case ChangePinFinish =>
      && HasPake(ctx) && IsChangingPin(ctx.sessionState)
      && RegistrationOf(ctx, ports).Ok? && FindDeviceKey(ctx.state, ctx.deviceKid).Some?
    case HsmSign =>
      && !HsmOperationUsed(ctx.sessionState)
      && ctx.innerRequest.data.Some? && ctx.innerRequest.data.value.asSign.Some?
      && FindHsmKey(ctx.state, ctx.innerRequest.data.value.asSign.value.hsmKid).Some?
      && SignatureOf(ctx, ports).Some? && ports.isSignature(SignatureOf(ctx, ports).value)
    case HsmGenerateKey =>
      && !HsmOperationUsed(ctx.sessionState) && ctx.innerRequest.data.Some?
      && ctx.innerRequest.data.value.asCreateKey.Some?
      && GeneratedBy(ctx, ports).Some?
      && GeneratedBy(ctx, ports).value.Kid() != "" && FindHsmKey(ctx.state, GeneratedBy(ctx, ports).value.Kid()).None?
    case HsmDeleteKey =>
      && !HsmOperationUsed(ctx.sessionState)
      && ctx.innerRequest.data.Some? && ctx.innerRequest.data.value.asDeleteKey.Some?
      && FindHsmKey(ctx.state, ctx.innerRequest.data.value.asDeleteKey.value).Some?
    case HsmListKeys => true
    case EndSession => ctx.sessionId.Some?
    case _ => false
  }

  /** Success and failure of every operation, both ways. */
  lemma SucceedsExactly(ctx: OperationContext, ports: PortReplies)
    ensures Dispatched(ctx, ports).Ok? <==> MaySucceed(ctx, ports) && ports.toValueOk
  {
    match ctx.innerRequest.requestType
    case RegisterStart => CodeAccepted(ctx);
    case RegisterFinish => RegisterFinishSucceeds(ctx, ports);
    case HsmGenerateKey => GenerateKeySucceeds(ctx, ports);
    case HsmDeleteKey => DeleteKeySucceeds(ctx, ports);
    case _ =>
  }

  lemma CodeAccepted(ctx: OperationContext)
    ensures BringsTheCode(ctx) <==>
              PakeRequestOf(ctx.innerRequest).Ok? && CheckAuthorization(ctx, PakeRequestOf(ctx.innerRequest).value).Ok?
  {
  }

  /** The code check of register-finish makes the second check inside the state update redundant. */
  lemma RegisterFinishNeverFailsInside(ctx: OperationContext, entry: PasswordFileEntry)
    requires PakeRequestOf(ctx.innerRequest).Ok?
    requires CheckAuthorization(ctx, PakeRequestOf(ctx.innerRequest).value).Ok?
    ensures WithPasswordFile(ctx.state, ctx.deviceKid, entry, PakeRequestOf(ctx.innerRequest).value.authorization).Ok?
  {
  }

  lemma RegisterFinishSucceeds(ctx: OperationContext, ports: PortReplies)
    ensures DoRegisterFinish(ctx, ports).Ok? <==>
              BringsTheCode(ctx) && RegistrationOf(ctx, ports).Ok? && ports.toValueOk
  {
    CodeAccepted(ctx);
    if BringsTheCode(ctx) && RegistrationOf(ctx, ports).Ok? {
      RegisterFinishNeverFailsInside(ctx, NewEntry(RegistrationOf(ctx, ports).value, ports));
    }
  }

  lemma GenerateKeySucceeds(ctx: OperationContext, ports: PortReplies)
    ensures DoGenerateKey(ctx, ports).Ok? <==>
      && !HsmOperationUsed(ctx.sessionState) && ctx.innerRequest.data.Some?
      && ctx.innerRequest.data.value.asCreateKey.Some?
      && GeneratedBy(ctx, ports).Some?
      && GeneratedBy(ctx, ports).value.Kid() != "" && FindHsmKey(ctx.state, GeneratedBy(ctx, ports).value.Kid()).None?
      && ports.toValueOk
  {
  }

  lemma DeleteKeySucceeds(ctx: OperationContext, ports: PortReplies)
    ensures DoDeleteKey(ctx, ports).Ok? <==>
      && !HsmOperationUsed(ctx.sessionState) && ctx.innerRequest.data.Some?
      && ctx.innerRequest.data.value.asDeleteKey.Some?
      && FindHsmKey(ctx.state, ctx.innerRequest.data.value.asDeleteKey.value).Some?
      && ports.toValueOk
  {
  }
}
