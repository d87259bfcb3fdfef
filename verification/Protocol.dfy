/** Wire types shared by the BFF, the worker and the client, and the tokens they travel in.

    JOSE objects are symbolic terms: a token remembers which key signed or sealed it, and it
    opens under that key only. JSON is an invertible codec: a payload is the value it encodes,
    or `None` when the bytes do not parse as the type the reader expects.
  */
module Protocol {
  import opened Wrappers

  newtype byte = b: int | 0 <= b < 256
  type Bytes = seq<byte>

  /** A UUID in the source; the model needs only equality and freshness. */
  type SessionId = string

  datatype EcPublicJwk = EcPublicJwk(kty: string, crv: string, x: string, y: string, kid: string)

  datatype Curve = P256 | P384 | P521

  datatype Status = StatusOk | StatusError

  datatype OperationId =
    | AuthenticateStart | AuthenticateFinish | RegisterStart | RegisterFinish
    | ChangePinStart | ChangePinFinish
    | HsmSign | HsmEcdh | HsmGenerateKey | HsmDeleteKey | HsmListKeys
    | EndSession | Store | Retrieve | Log | GetLog | Info
  {
    /** The encryption class of the inner JWE, for the request and for its reply. */
    function EncryptOption(): EncryptOption {
      match this
      case AuthenticateStart | AuthenticateFinish | RegisterStart | RegisterFinish => Device
      case _ => Session
    }

    /** The operations that may change or use an HSM key; at most one succeeds per session. */
    predicate HsmMutating() {
      HsmSign? || HsmGenerateKey? || HsmDeleteKey?
    }
  }

  datatype EncryptOption = Session | Device

  /** The part of a JWK that identifies the key pair. */
  datatype KeyPair = KeyPair(crv: string, x: string, y: string)

  function PairOf(jwk: EcPublicJwk): KeyPair {
    KeyPair(jwk.crv, jwk.x, jwk.y)
  }

  datatype SigningKey = ServerSigningKey | DeviceSigningKey(pair: KeyPair)

  datatype SealingKey = SessionSealingKey(key: Bytes) | ServerSealingKey | DeviceSealingKey(pair: KeyPair)

  datatype Jws<+T> = Jws(kid: Option<string>, signedBy: SigningKey, payload: Option<T>)

  datatype Jwe<+T> = Jwe(kid: Option<string>, sealedFor: SealingKey, plaintext: Option<T>)

  /** Opens a JWS with one verification key; `ok` lets the library fail at will. */
  function Verify<T>(jws: Jws<T>, key: SigningKey, ok: bool): Option<T> {
    if ok && jws.signedBy == key then jws.payload else None
  }

  /** Opens a JWE with one decryption key; `ok` lets the library fail at will. */
  function Decrypt<T>(jwe: Jwe<T>, key: SealingKey, ok: bool): Option<T> {
    if ok && jwe.sealedFor == key then jwe.plaintext else None
  }

  // === Operation data ===

  datatype PakeRequest = PakeRequest(authorization: Option<string>, purpose: Option<string>, data: Bytes)

  datatype SignRequest = SignRequest(hsmKid: string, message: Bytes)

  /** The JSON text in `InnerRequest.data`, known by what each reader makes of it. */
  datatype RequestData = RequestData(
    text: string,
    asPake: Option<PakeRequest>,
    asSign: Option<SignRequest>,
    asCreateKey: Option<Curve>,
    asDeleteKey: Option<string>)

  datatype KeyInfo = KeyInfo(createdAt: Option<string>, publicKey: EcPublicJwk)

  /** The JSON value a successful operation answers with. */
  datatype ResponseData =
    | PakeResponse(data: Option<Bytes>)
    | SignatureResponse(signature: Bytes)
    | CreateKeyResponse(publicKey: EcPublicJwk)
    | DeleteKeyResponse(hsmKid: string)
    | ListKeysResponse(keyInfo: seq<KeyInfo>)

  // === Envelopes ===

  datatype InnerRequest = InnerRequest(version: nat, requestType: OperationId, data: Option<RequestData>)

  datatype OuterRequest = OuterRequest(
    version: nat,
    sessionId: Option<SessionId>,
    serverKid: Option<string>,
    innerJwe: Option<Jwe<InnerRequest>>,
    nonce: string)

  datatype InnerResponse = InnerResponse(
    version: nat,
    data: Option<ResponseData>,
    expiresIn: Option<nat>,
    status: Status,
    errorMessage: Option<Problem>)

  datatype OuterResponse = OuterResponse(
    version: nat,
    sessionId: Option<SessionId>,
    innerJwe: Option<Jwe<InnerResponse>>,
    status: Status,
    errorMessage: Option<Problem>)

  function OuterOk(innerJwe: Jwe<InnerResponse>, sessionId: Option<SessionId>): OuterResponse {
    OuterResponse(1, sessionId, Some(innerJwe), StatusOk, None)
  }

  function OuterFailure(problem: Problem): OuterResponse {
    OuterResponse(1, None, None, StatusError, Some(problem))
  }

  function InnerOk(data: ResponseData, expiresIn: Option<nat>): InnerResponse {
    InnerResponse(1, Some(data), expiresIn, StatusOk, None)
  }

  function InnerFailure(problem: Problem): InnerResponse {
    InnerResponse(1, None, None, StatusError, Some(problem))
  }

  // === Errors ===

  datatype ServiceRequestError =
    | InvalidPakeRequest | ServerRegistrationStartFailed | ServerLoginStartFailed
    | ServerLoginFinishFailed | InvalidServiceRequestFormat | InvalidSerializedPasswordFile
    | InvalidAuthenticateRequest | UnknownKey | UnknownSession | UnknownClient
    | InvalidPublicKey | DuplicateKey | HsmKeyNotFound | InvalidOperation
    | InternalServerError | InvalidAuthorizationCode | UnknownRequestError

  datatype UpstreamError =
    | InvalidStateJws | OuterJwsInvalid | OuterJwsMissingKid | UnknownDevice
    | UnknownServerKid | ServerKidRequired | EncodeFailed(reason: string)

  datatype OuterError =
    | InnerJweMissing | InnerJweDecryptFailed | UnknownEncryptionOption | SessionKeyMissing

  /** An error tagged by who may see it on the way back. */
  datatype WorkerError =
    | Upstream(upstream: UpstreamError)
    | Outer(outer: OuterError)
    | Inner(inner: ServiceRequestError)

  /** Problem-details JSON: the error's name and the request it belongs to. */
  datatype Problem = Problem(error: WorkerError, requestId: string)
}
