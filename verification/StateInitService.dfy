/** The worker's answer to a state-init request: the first device state of a client. */
module StateInitService {
  import opened Wrappers
  import opened Protocol
  import opened DeviceState

  datatype StateInitRequest = StateInitRequest(
    requestId: string,
    clientJwsPublicKey: EcPublicJwk,
    clientJwePublicKey: Option<EcPublicJwk>,
    responseTopic: string,
    initialKeyCurve: Curve)

  datatype StateInitResponse = StateInitResponse(
    requestId: string,
    stateJws: Jws<StateRecord>,
    devAuthorizationCode: string,
    serverJwsPublicKey: Option<EcPublicJwk>,
    serverJwePublicKey: Option<EcPublicJwk>,
    opaqueServerId: Option<string>,
    initialHsmKey: Option<EcPublicJwk>)

  datatype StateInitError = InvalidJwk | SigningError | SendError | HsmKeyGenerationError

  /** The code generator, the HSM, the signer and the response port, for one request. */
  datatype InitReplies = InitReplies(
    devAuthCode: string,
    generateKey: Curve -> Option<HsmKey>,
    sign: bool,
    send: bool,
    serverJwsPublicKey: EcPublicJwk,
    serverJwePublicKey: EcPublicJwk,
    opaqueServerId: string)

  predicate ValidEcPublicJwk(jwk: EcPublicJwk) {
    jwk.kty == "EC" && jwk.crv == "P-256" && jwk.x != "" && jwk.y != "" && jwk.kid != ""
  }

  function JweKeyOf(request: StateInitRequest): Result<EcPublicJwk, StateInitError> {
    match request.clientJwePublicKey
    case None => Ok(request.clientJwsPublicKey)
    case Some(k) =>
      if !ValidEcPublicJwk(k) then Err(InvalidJwk)
      else if k.x == request.clientJwsPublicKey.x && k.y == request.clientJwsPublicKey.y then Err(InvalidJwk)
      else Ok(k)
  }

  /** The key the HSM makes for the curve the request names. */
  function GeneratedFor(request: StateInitRequest, r: InitReplies): Option<HsmKey> {
    r.generateKey(request.initialKeyCurve)
  }

  function InitialState(request: StateInitRequest, jwe: EcPublicJwk, code: string, key: HsmKey): StateRecord {
    StateRecord(1, [DeviceKeyEntry(request.clientJwsPublicKey, Some(jwe), [], Some(code))], [key])
  }

  /** The response that was built and signed; sending it may still fail. */
  function Initialized(request: StateInitRequest, r: InitReplies): Result<StateInitResponse, StateInitError> {
    if !ValidEcPublicJwk(request.clientJwsPublicKey) then Err(InvalidJwk)
    else
      var jwe :- JweKeyOf(request);
      if GeneratedFor(request, r).None? then Err(HsmKeyGenerationError)
      else if !r.sign then Err(SigningError)
      else
        var state := InitialState(request, jwe, r.devAuthCode, GeneratedFor(request, r).value);
        Ok(StateInitResponse(request.requestId, Jws(Some(r.serverJwsPublicKey.kid), ServerSigningKey, Some(state)),
                             r.devAuthCode,
                             Some(r.serverJwsPublicKey), Some(r.serverJwePublicKey), Some(r.opaqueServerId),
                             Some(GeneratedFor(request, r).value.publicKeyJwk)))
  }

  class StateInitService {
    var sent: seq<(StateInitResponse, string)>

    constructor ()
      ensures sent == []
    {
      sent := [];
    }

    method Initialize(request: StateInitRequest, r: InitReplies) returns (result: Result<string, StateInitError>)
      modifies this
      ensures Initialized(request, r).Err? ==> result == Err(Initialized(request, r).error) && sent == old(sent)
      ensures Initialized(request, r).Ok? && r.send ==>
        result == Ok(request.requestId) && sent == old(sent) + [(Initialized(request, r).value, request.responseTopic)]
      ensures Initialized(request, r).Ok? && !r.send ==> result == Err(SendError) && sent == old(sent)
    {
      if !ValidEcPublicJwk(request.clientJwsPublicKey) {
        return Err(InvalidJwk);
      }
      var jwe := JweKeyOf(request);
      if jwe.Err? {
        return Err(jwe.error);
      }
      var generated := r.generateKey(request.initialKeyCurve);
      if generated.None? {
        return Err(HsmKeyGenerationError);
      }
      var hsmKey := generated.value;
      var state := InitialState(request, jwe.value, r.devAuthCode, hsmKey);
      if !r.sign {
        return Err(SigningError);
      }
      var stateJws := Jws(Some(r.serverJwsPublicKey.kid), ServerSigningKey, Some(state));
      var response := StateInitResponse(request.requestId, stateJws, r.devAuthCode,
                                        Some(r.serverJwsPublicKey), Some(r.serverJwePublicKey), Some(r.opaqueServerId),
                                        Some(hsmKey.publicKeyJwk));
      if !r.send {
        return Err(SendError);
      }
      sent := sent + [(response, request.responseTopic)];
      return Ok(request.requestId);
    }
  }

  /** What the source accepts as a client key. */
  predicate AcceptableKey(jwk: EcPublicJwk) {
    jwk.kty == "EC" && jwk.crv == "P-256" && jwk.x != "" && jwk.y != "" && jwk.kid != ""
  }

  /** When an initial state is made, and which error comes instead. */
  lemma InitializedExactly(request: StateInitRequest, r: InitReplies)
    ensures var result, jws, jwe := Initialized(request, r), request.clientJwsPublicKey, request.clientJwePublicKey;
      if !AcceptableKey(jws) then result == Err(InvalidJwk)
      else if jwe.Some? && (!AcceptableKey(jwe.value) || (jwe.value.x == jws.x && jwe.value.y == jws.y)) then
        result == Err(InvalidJwk)
      else if r.generateKey(request.initialKeyCurve).None? then result == Err(HsmKeyGenerationError)
      else if !r.sign then result == Err(SigningError)
      else result.Ok?
  {
  }

  /** What the response says is what its own token holds: one authorization code in both places, the client's keys,
      the one HSM key. The token is signed by the server, and the response hands out the server's two keys. */
  lemma ResponseMatchesItsToken(request: StateInitRequest, r: InitReplies)
    requires Initialized(request, r).Ok?
    ensures var response := Initialized(request, r).value;
      && response.requestId == request.requestId
      && response.stateJws.kid == Some(r.serverJwsPublicKey.kid) && response.stateJws.signedBy == ServerSigningKey
      && response.stateJws.payload.Some?
      && response.serverJwsPublicKey == Some(r.serverJwsPublicKey)
      && response.serverJwePublicKey == Some(r.serverJwePublicKey)
      && response.opaqueServerId == Some(r.opaqueServerId)
      && var state := response.stateJws.payload.value;
         && state.version == 1 && |state.deviceKeys| == 1 && |state.hsmKeys| == 1
         && state.deviceKeys[0].devAuthorizationCode == Some(response.devAuthorizationCode)
         && response.devAuthorizationCode == r.devAuthCode
         && state.deviceKeys[0].jwsPublicKey == request.clientJwsPublicKey
         && state.deviceKeys[0].jwePublicKey ==
              Some(if request.clientJwePublicKey.Some? then request.clientJwePublicKey.value
                   else request.clientJwsPublicKey)
         && state.deviceKeys[0].passwordFiles == []
         && r.generateKey(request.initialKeyCurve) == Some(state.hsmKeys[0])
         && response.initialHsmKey == Some(state.hsmKeys[0].publicKeyJwk)
  {
  }

  /** The first state has one device key with a one-shot code and no password, and exactly one HSM key; it
      is well formed exactly when the HSM named that key. */
  lemma InitialStateShape(request: StateInitRequest, r: InitReplies)
    requires Initialized(request, r).Ok?
    ensures var s := Initialized(request, r).value.stateJws.payload.value;
      && |s.hsmKeys| == 1
      && DeviceKids(s.deviceKeys) == [request.clientJwsPublicKey.kid]
      && GetPasswordFileEntry(s, request.clientJwsPublicKey.kid) == None
      && FindDeviceKey(s, request.clientJwsPublicKey.kid).value.devAuthorizationCode == Some(r.devAuthCode)
      && (Wellformed(s) <==> GeneratedFor(request, r).value.Kid() != "")
  {
    var s := Initialized(request, r).value.stateJws.payload.value;
    var kids := DeviceKids(s.deviceKeys);
    assert kids == [request.clientJwsPublicKey.kid];
    assert HsmKids(s.hsmKeys) == [GeneratedFor(request, r).value.Kid()];
    assert kids[0] in kids;
  }
}
