/** The nonce gate in front of the BFF's handlers, and the JSON readers on both sides of it. */
module ReplayProtection {
  import opened Wrappers
  import opened Protocol
  import opened CompactJws
  import opened NonceStore

  // === JSON, as the derived readers see it ===

  datatype Json =
    | JNull
    | JNumber(n: int)
    | JString(text: string)
    | JArray(items: seq<Json>)
    | JObject(fields: seq<Field>)
    | JOther

  datatype Field = Field(name: string, value: Json)

  datatype Member = Missing | Single(value: Json) | Duplicate

  /** A name that occurs twice is an error to the reader that knows it. */
  function MemberOf(fields: seq<Field>, name: string): Member {
    if fields == [] then Missing
    else
      match MemberOf(fields[1..], name)
      case Missing => if fields[0].name == name then Single(fields[0].value) else Missing
      case Single(v) => if fields[0].name == name then Duplicate else Single(v)
      case Duplicate => Duplicate
  }

  function RequiredText(m: Member): Option<string> {
    if m.Single? && m.value.JString? then Some(m.value.text) else None
  }

  /** The outer option is the reader's success, the inner one the field. */
  function OptionalText(m: Member): Option<Option<string>> {
    match m
    case Missing => Some(None)
    case Single(JNull) => Some(None)
    case Single(JString(text)) => Some(Some(text))
    case _ => None
  }

  function RequiredU32(m: Member): Option<nat> {
    if m.Single? && m.value.JNumber? && 0 <= m.value.n < 0x1_0000_0000 then Some(m.value.n) else None
  }

  datatype ReplayBody = ReplayBody(clientId: Option<string>, outerRequestJws: Option<string>)

  datatype BffRequest = BffRequest(clientId: string, outerRequestJws: string, stateJws: Option<string>)

  /** The part of an outer request that is text and numbers. */
  datatype OuterFields = OuterFields(version: nat, sessionId: Option<string>, serverKid: Option<string>,
                                     innerJwe: Option<string>, nonce: string)

  function ReplayBodyFrom(clientId: Member, jws: Member): Option<ReplayBody> {
    match (OptionalText(clientId), OptionalText(jws))
    case (Some(c), Some(j)) => Some(ReplayBody(c, j))
    case _ => None
  }

  function BffRequestFrom(clientId: Member, jws: Member, state: Member): Option<BffRequest> {
    match (RequiredText(clientId), RequiredText(jws), OptionalText(state))
    case (Some(c), Some(j), Some(s)) => Some(BffRequest(c, j, s))
    case _ => None
  }

  function OuterFieldsFrom(version: Member, sessionId: Member, serverKid: Member, innerJwe: Member, nonce: Member)
    : Option<OuterFields>
  {
    match (RequiredU32(version), OptionalText(sessionId), OptionalText(serverKid), OptionalText(innerJwe),
           RequiredText(nonce))
    case (Some(v), Some(s), Some(k), Some(j), Some(n)) => Some(OuterFields(v, s, k, j, n))
    case _ => None
  }

  /** Derived readers take an object by name, or an array by position and of their own length. */
  function ReadReplayBody(json: Json): Option<ReplayBody> {
    match json
    case JObject(fields) => ReplayBodyFrom(MemberOf(fields, "clientId"), MemberOf(fields, "outerRequestJws"))
    case JArray(items) => if |items| == 2 then ReplayBodyFrom(Single(items[0]), Single(items[1])) else None
    case _ => None
  }

  function ReadBffRequest(json: Json): Option<BffRequest> {
    match json
    case JObject(fields) => BffRequestFrom(MemberOf(fields, "clientId"), MemberOf(fields, "outerRequestJws"),
                                           MemberOf(fields, "stateJws"))
    case JArray(items) =>
      if |items| == 2 then BffRequestFrom(Single(items[0]), Single(items[1]), Missing)
      else if |items| == 3 then BffRequestFrom(Single(items[0]), Single(items[1]), Single(items[2]))
      else None
    case _ => None
  }

  function ReadNonceOnly(json: Json): Option<string> {
    match json
    case JObject(fields) => RequiredText(MemberOf(fields, "nonce"))
    case JArray(items) => if |items| == 1 then RequiredText(Single(items[0])) else None
    case _ => None
  }

  function ReadOuterFields(json: Json): Option<OuterFields> {
    match json
    case JObject(fields) =>
      OuterFieldsFrom(MemberOf(fields, "version"), MemberOf(fields, "session_id"), MemberOf(fields, "server_kid"),
                      MemberOf(fields, "inner_jwe"), MemberOf(fields, "nonce"))
    case JArray(items) =>
      if |items| == 5
      then OuterFieldsFrom(Single(items[0]), Single(items[1]), Single(items[2]), Single(items[3]), Single(items[4]))
      else None
    case _ => None
  }

  predicate Names(fields: seq<Field>, i: nat, name: string) {
    i < |fields| && fields[i].name == name
  }

  /** A name that no field has is missing. */
  lemma {:induction false} MemberMissing(fields: seq<Field>, name: string)
    requires forall i: nat :: !Names(fields, i, name)
    ensures MemberOf(fields, name) == Missing
  {
    if fields != [] {
      assert !Names(fields, 0, name);
      forall i: nat ensures !Names(fields[1..], i, name) {
        assert !Names(fields, i + 1, name);
      }
      MemberMissing(fields[1..], name);
    }
  }

  /** A name that one field has is that field's value, whatever its place. */
  lemma {:induction false} MemberSingle(fields: seq<Field>, name: string, i: nat)
    requires Names(fields, i, name) && forall j: nat :: Names(fields, j, name) ==> j == i
    ensures MemberOf(fields, name) == Single(fields[i].value)
  {
    forall j: nat | Names(fields[1..], j, name) ensures j + 1 == i {
      assert Names(fields, j + 1, name);
    }
    if i == 0 {
      MemberMissing(fields[1..], name);
    } else {
      assert !Names(fields, 0, name);
      MemberSingle(fields[1..], name, i - 1);
    }
  }

  /** A name that two fields have is a duplicate. */
  lemma {:induction false} MemberDuplicate(fields: seq<Field>, name: string, i: nat, j: nat)
    requires i < j && Names(fields, i, name) && Names(fields, j, name)
    ensures MemberOf(fields, name) == Duplicate
  {
    if i > 0 {
      MemberDuplicate(fields[1..], name, i - 1, j - 1);
    } else {
      MemberPresent(fields[1..], name, j - 1);
    }
  }

  lemma {:induction false} MemberPresent(fields: seq<Field>, name: string, i: nat)
    requires Names(fields, i, name)
    ensures MemberOf(fields, name) != Missing
  {
    if i > 0 {
      MemberPresent(fields[1..], name, i - 1);
    }
  }

  /** A text field that must be there: one occurrence, a string. One that may be missing may also be null. */
  predicate HasText(fields: seq<Field>, name: string, text: string) {
    MemberOf(fields, name) == Single(JString(text))
  }

  predicate MayHaveText(fields: seq<Field>, name: string, text: Option<string>) {
    match text
    case Some(t) => HasText(fields, name, t)
    case None => MemberOf(fields, name) == Missing || MemberOf(fields, name) == Single(JNull)
  }

  /** What each reader accepts of an object, field by field under its wire name. */
  lemma BodiesExactly(fields: seq<Field>, c: Option<string>, j: Option<string>, clientId: string, jws: string,
                      state: Option<string>)
    ensures ReadReplayBody(JObject(fields)) == Some(ReplayBody(c, j)) <==>
              MayHaveText(fields, "clientId", c) && MayHaveText(fields, "outerRequestJws", j)
    ensures ReadBffRequest(JObject(fields)) == Some(BffRequest(clientId, jws, state)) <==>
              && HasText(fields, "clientId", clientId) && HasText(fields, "outerRequestJws", jws)
              && MayHaveText(fields, "stateJws", state)
  {
  }

  lemma PayloadsExactly(fields: seq<Field>, nonce: string, outer: OuterFields)
    ensures ReadNonceOnly(JObject(fields)) == Some(nonce) <==> HasText(fields, "nonce", nonce)
    ensures ReadOuterFields(JObject(fields)) == Some(outer) <==>
              && MemberOf(fields, "version") == Single(JNumber(outer.version)) && outer.version < 0x1_0000_0000
              && MayHaveText(fields, "session_id", outer.sessionId)
              && MayHaveText(fields, "server_kid", outer.serverKid)
              && MayHaveText(fields, "inner_jwe", outer.innerJwe) && HasText(fields, "nonce", outer.nonce)
  {
    OptionalExactly(fields, "session_id", outer.sessionId);
    OptionalExactly(fields, "server_kid", outer.serverKid);
    OptionalExactly(fields, "inner_jwe", outer.innerJwe);
    OuterExactly(MemberOf(fields, "version"), MemberOf(fields, "session_id"), MemberOf(fields, "server_kid"),
                 MemberOf(fields, "inner_jwe"), MemberOf(fields, "nonce"), outer);
  }

  lemma OptionalExactly(fields: seq<Field>, name: string, text: Option<string>)
    ensures OptionalText(MemberOf(fields, name)) == Some(text) <==> MayHaveText(fields, name, text)
  {
  }

  lemma OuterExactly(version: Member, sessionId: Member, serverKid: Member, innerJwe: Member, nonce: Member,
                     outer: OuterFields)
    ensures OuterFieldsFrom(version, sessionId, serverKid, innerJwe, nonce) == Some(outer) <==>
              && version == Single(JNumber(outer.version)) && outer.version < 0x1_0000_0000
              && OptionalText(sessionId) == Some(outer.sessionId) && OptionalText(serverKid) == Some(outer.serverKid)
              && OptionalText(innerJwe) == Some(outer.innerJwe) && nonce == Single(JString(outer.nonce))
  {
  }

  // === The two readers of one body ===

  /** The gate has found both fields it looks for. */
  predicate GateReads(json: Json) {
    match ReadReplayBody(json)
    case Some(ReplayBody(Some(_), Some(_))) => true
    case _ => false
  }

  predicate PositionalTriple(json: Json) {
    json.JArray? && |json.items| == 3
  }

  /** Of the bodies the handler accepts the gate reads all but the positional ones of three elements, and
      what it reads is what the handler reads. */
  lemma GateReadsWhatTheHandlerAccepts(json: Json)
    requires ReadBffRequest(json).Some?
    ensures GateReads(json) <==> !PositionalTriple(json)
    ensures GateReads(json) ==>
              ReadReplayBody(json) ==
                Some(ReplayBody(Some(ReadBffRequest(json).value.clientId),
                                Some(ReadBffRequest(json).value.outerRequestJws)))
  {
  }

  /** Such a body exists: the handler's third field has no place in the gate's reader. */
  lemma PositionalTripleIsAccepted(clientId: string, jws: string)
    ensures var json := JArray([JString(clientId), JString(jws), JNull]);
            ReadBffRequest(json) == Some(BffRequest(clientId, jws, None)) && !GateReads(json)
  {
  }

  /** The nonce-only view of an outer request agrees with the full one, and it exists for objects. */
  lemma NonceViewsAgree(json: Json)
    requires ReadOuterFields(json).Some?
    ensures ReadNonceOnly(json).Some? <==> json.JObject?
    ensures ReadNonceOnly(json).Some? ==> ReadNonceOnly(json).value == ReadOuterFields(json).value.nonce
  {
  }

  // === The gate's decision ===

  datatype Verb = GET | POST | OtherVerb

  /** `body` is absent when it cannot be read. */
  datatype HttpRequest = HttpRequest(verb: Verb, path: string, body: Option<Bytes>)

  type Parser = Bytes -> Option<Json>

  const DEVICE_STATES: string := "/hsm/v1/device-states"
  const REQUESTS: string := "/hsm/v1/requests"

  datatype Decision = Pass | Refuse(status: nat) | Ask(clientId: string, nonce: string)

  function NonceIn(jws: string, parse: Parser): Option<string> {
    match JwsDecodeUnverified(jws)
    case None => None
    case Some(payload) =>
      match parse(payload)
      case None => None
      case Some(json) => ReadNonceOnly(json)
  }

  /** The client id and the token, when the gate's reader finds both. */
  function FieldsIn(body: Option<Json>): (r: Option<(string, string)>)
    ensures r.Some? <==> body.Some? && GateReads(body.value)
    ensures r.Some? ==> ReadReplayBody(body.value) == Some(ReplayBody(Some(r.value.0), Some(r.value.1)))
  {
    match body
    case None => None
    case Some(json) =>
      match ReadReplayBody(json)
      case Some(ReplayBody(Some(clientId), Some(jws))) => Some((clientId, jws))
      case _ => None
  }

  function Decide(request: HttpRequest, parse: Parser): Decision {
    if request.verb.GET? then Pass
    else if request.path == DEVICE_STATES then Pass
    else if request.body.None? then Refuse(400)
    else
      match parse(request.body.value)
      case None => Pass
      case Some(json) =>
        match ReadReplayBody(json)
        case Some(ReplayBody(Some(clientId), Some(jws))) =>
          (match NonceIn(jws, parse)
           case Some(nonce) => Ask(clientId, nonce)
           case None => Refuse(400))
        case _ => Pass
  }

  /** The requests the `service` handler may send to the workers, as it reads them. */
  function Served(request: HttpRequest, parse: Parser): Option<BffRequest> {
    if !request.verb.POST? || request.path != REQUESTS || request.body.None? then None
    else
      match parse(request.body.value)
      case None => None
      case Some(json) => ReadBffRequest(json)
  }

  predicate HasPositionalTriple(request: HttpRequest, parse: Parser) {
    request.body.Some? && parse(request.body.value).Some? && PositionalTriple(parse(request.body.value).value)
  }

  /** The gate lets a request that may be sent on pass unasked exactly when its body is a positional
      triple; any other it refuses, or asks about under the client id the handler reads and the nonce of the
      token the handler forwards. */
  lemma AskedBeforeServed(request: HttpRequest, parse: Parser)
    requires Served(request, parse).Some?
    ensures Decide(request, parse).Pass? <==> HasPositionalTriple(request, parse)
    ensures var served := Served(request, parse).value;
            !HasPositionalTriple(request, parse) ==>
              Decide(request, parse) ==
                match NonceIn(served.outerRequestJws, parse)
                case Some(nonce) => Ask(served.clientId, nonce)
                case None => Refuse(400)
  {
    GateReadsWhatTheHandlerAccepts(parse(request.body.value).value);
  }

  /** The handler is reached by POST on its own path, with a body its reader accepts, and by nothing else. */
  lemma ServedExactly(request: HttpRequest, parse: Parser, served: BffRequest)
    ensures Served(request, parse) == Some(served) <==>
              && request.verb == POST && request.path == "/hsm/v1/requests" && request.body.Some?
              && parse(request.body.value).Some? && ReadBffRequest(parse(request.body.value).value) == Some(served)
  {
  }

  /** The gate finds the nonce of any token built over an object that has one, and of no other token. */
  lemma NonceOfToken(header: Bytes, payload: Bytes, signature: Bytes, parse: Parser, nonce: string)
    ensures NonceIn(Compact(header, payload, signature), parse) == Some(nonce) <==>
              parse(payload).Some? && ReadNonceOnly(parse(payload).value) == Some(nonce)
  {
    CompactSplits(header, payload, signature);
    DecodeEncode(payload);
  }

  /** The nonce the gate reads without verifying is the nonce of the outer request the worker verifies. */
  lemma NonceIsTheVerifiedOne(jws: string, parse: Parser, signed: (string, Bytes) -> bool)
    requires NonceIn(jws, parse).Some?
    requires JwsVerify(jws, signed).Some? && parse(JwsVerify(jws, signed).value).Some?
    requires ReadOuterFields(parse(JwsVerify(jws, signed).value).value).Some?
    ensures NonceIn(jws, parse).value == ReadOuterFields(parse(JwsVerify(jws, signed).value).value).value.nonce
  {
    UnverifiedAgrees(jws, signed);
    NonceViewsAgree(parse(JwsVerify(jws, signed).value).value);
  }

  // === The gate ===

  datatype Outcome = Forwarded | Rejected(status: nat)

  function OutcomeOf(stored: RedisRetry.Reply<bool>): (r: Outcome)
    ensures r.Forwarded? <==> stored == Ok(true)
    ensures r == Rejected(409) <==> stored == Ok(false)
    ensures r == Rejected(503) <==> stored.Err?
  {
    match stored
    case Ok(true) => Forwarded
    case Ok(false) => Rejected(409)
    case Err(_) => Rejected(503)
  }

  class Gate {
    const noncePort: NonceRedisAdapter
    const nonceTtlSeconds: nat

    constructor (noncePort: NonceRedisAdapter, nonceTtlSeconds: nat)
      ensures this.noncePort == noncePort && this.nonceTtlSeconds == nonceTtlSeconds
    {
      this.noncePort := noncePort;
      this.nonceTtlSeconds := nonceTtlSeconds;
    }

    /** A request the gate asks about is forwarded only after its nonce was set by this request's own last
        operation; a used nonce answers 409, a failing store 503. */
    method Check(request: HttpRequest, parse: Parser, caller: nat, attempts: nat -> Attempt, built: Option<nat>)
      returns (outcome: Outcome, history: seq<RedisRetry.Reply<bool>>)
      modifies noncePort, noncePort.conn
      ensures request.verb.GET? || request.path == "/hsm/v1/device-states" ==>
                outcome == Forwarded && noncePort.log == old(noncePort.log)
      ensures !(request.verb.GET? || request.path == "/hsm/v1/device-states") ==>
                && (request.body.None? ==> outcome == Rejected(400) && noncePort.log == old(noncePort.log))
                && (request.body.Some? ==>
                      match FieldsIn(parse(request.body.value))
                      case None => outcome == Forwarded && noncePort.log == old(noncePort.log)
                      case Some((clientId, jws)) =>
                        match NonceIn(jws, parse)
                        case None => outcome == Rejected(400) && noncePort.log == old(noncePort.log)
                        case Some(nonce) =>
                          && RedisRetry.Complete(history)
                          && outcome == OutcomeOf(history[|history| - 1])
                          && noncePort.log ==
                               LogAfter(old(noncePort.log),
                                        SetOp(NonceKey(clientId, nonce), nonceTtlSeconds, 0, caller),
                                        attempts, |history|))
      ensures match Decide(request, parse)
              case Pass => outcome == Forwarded && noncePort.log == old(noncePort.log)
              case Refuse(status) => outcome == Rejected(status) && noncePort.log == old(noncePort.log)
              case Ask(clientId, nonce) =>
                && RedisRetry.Complete(history)
                && noncePort.log ==
                     LogAfter(old(noncePort.log), SetOp(NonceKey(clientId, nonce), nonceTtlSeconds, 0, caller),
                              attempts, |history|)
                && outcome == (match history[|history| - 1]
                               case Ok(true) => Forwarded
                               case Ok(false) => Rejected(409)
                               case Err(_) => Rejected(503))
                && (outcome.Forwarded? ==>
                      && var last := |noncePort.log| - 1;
                         last >= 0 && Won(noncePort.log, last)
                         && noncePort.log[last] ==
                              SetOp(NonceKey(clientId, nonce), nonceTtlSeconds, attempts(|history| - 1).at, caller))
      ensures outcome.Forwarded? && Served(request, parse).Some? && !HasPositionalTriple(request, parse) ==>
                var served := Served(request, parse).value;
                && NonceIn(served.outerRequestJws, parse).Some?
                && RedisRetry.Complete(history) && history[|history| - 1] == Ok(true)
                && |noncePort.log| > 0 && Won(noncePort.log, |noncePort.log| - 1)
                && noncePort.log[|noncePort.log| - 1].key ==
                     NonceKey(served.clientId, NonceIn(served.outerRequestJws, parse).value)
    {
      history := [];
      if Served(request, parse).Some? {
        AskedBeforeServed(request, parse);
      }
      if request.verb.GET? || request.path == DEVICE_STATES {
        return Forwarded, history;
      }
      if request.body.None? {
        return Rejected(400), history;
      }
      var fields := FieldsIn(parse(request.body.value));
      if fields.None? {
        return Forwarded, history;
      }
      var (clientId, jws) := fields.value;
      var nonce := NonceIn(jws, parse);
      if nonce.None? {
        return Rejected(400), history;
      }
      var stored;
      stored, history := noncePort.TryStore(clientId, nonce.value, nonceTtlSeconds, caller, attempts, built);
      outcome := OutcomeOf(stored);
    }
  }

  // === Any number of requests at once ===

  /** A request waiting at the gate: the pair it asks about, the replies so far, and when the store ran its
      last answered attempt. */
  datatype Flight = Flight(clientId: string, nonce: string, history: seq<RedisRetry.Reply<bool>>, answeredAt: nat)

  datatype Traffic = Traffic(log: seq<SetOp>, flights: seq<Flight>)

  datatype TrafficStep = Begin(clientId: string, nonce: string) | Try(flight: nat, at: nat, fate: Fate)

  predicate Possible(t: Traffic, step: TrafficStep) {
    match step
    case Begin(_, _) => true
    case Try(f, _, _) => f < |t.flights| && RedisRetry.GoesOn(t.flights[f].history)
  }

  function OpOf(t: Traffic, ttl: nat, f: nat, at: nat): SetOp
    requires f < |t.flights|
  {
    SetOp(NonceKey(t.flights[f].clientId, t.flights[f].nonce), ttl, at, f)
  }

  function Moved(t: Traffic, ttl: nat, step: TrafficStep): Traffic
    requires Possible(t, step)
  {
    match step
    case Begin(clientId, nonce) => t.(flights := t.flights + [Flight(clientId, nonce, [], 0)])
    case Try(f, at, fate) =>
      var op, flight := OpOf(t, ttl, f, at), t.flights[f];
      var a := Attempt([], at, fate);
      Traffic(AfterAttempt(t.log, op, a),
              t.flights[f := flight.(history := flight.history + [ReplyTo(t.log, op, a)], answeredAt := at)])
  }

  /** The gate's traffic after a run; a step that is not possible changes nothing. */
  function After(ttl: nat, steps: seq<TrafficStep>): Traffic {
    if steps == [] then Traffic([], [])
    else
      var before, last := After(ttl, steps[..|steps| - 1]), steps[|steps| - 1];
      if Possible(before, last) then Moved(before, ttl, last) else before
  }

  predicate Answered(flight: Flight, reply: bool) {
    flight.history != [] && flight.history[|flight.history| - 1] == Ok(reply)
  }

  /** Operation `i` is the one flight `f` was answered about. */
  predicate Answers(t: Traffic, ttl: nat, f: nat, reply: bool, i: nat) {
    f < |t.flights| && i < |t.log| && t.log[i] == OpOf(t, ttl, f, t.flights[f].answeredAt) && Won(t.log, i) == reply
  }

  ghost predicate Backed(t: Traffic, ttl: nat, f: nat, reply: bool) {
    exists i: nat :: Answers(t, ttl, f, reply, i)
  }

  ghost predicate Consistent(t: Traffic, ttl: nat) {
    && (forall i :: 0 <= i < |t.log| ==>
          t.log[i].caller < |t.flights| && t.log[i] == OpOf(t, ttl, t.log[i].caller, t.log[i].at))
    && (forall f: nat, reply: bool :: f < |t.flights| && Answered(t.flights[f], reply) ==> Backed(t, ttl, f, reply))
  }

  lemma BackingSurvives(t: Traffic, t': Traffic, ttl: nat, f: nat, reply: bool, more: seq<SetOp>)
    requires Backed(t, ttl, f, reply) && t'.log == t.log + more
    requires f < |t.flights| && f < |t'.flights| && t'.flights[f] == t.flights[f]
    ensures Backed(t', ttl, f, reply)
  {
    var i: nat :| Answers(t, ttl, f, reply, i);
    WonIsSettled(t.log, more, i);
    assert Answers(t', ttl, f, reply, i);
  }

  lemma BeginKeeps(t: Traffic, ttl: nat, clientId: string, nonce: string)
    requires Consistent(t, ttl)
    ensures Consistent(Moved(t, ttl, Begin(clientId, nonce)), ttl)
  {
    var t' := Moved(t, ttl, Begin(clientId, nonce));
    forall f: nat, reply: bool | f < |t'.flights| && Answered(t'.flights[f], reply) ensures Backed(t', ttl, f, reply) {
      BackingSurvives(t, t', ttl, f, reply, []);
    }
  }

  lemma TryKeeps(t: Traffic, ttl: nat, f: nat, at: nat, fate: Fate)
    requires Consistent(t, ttl) && Possible(t, Try(f, at, fate))
    ensures Consistent(Moved(t, ttl, Try(f, at, fate)), ttl)
  {
    var t' := Moved(t, ttl, Try(f, at, fate));
    var op, a := OpOf(t, ttl, f, at), Attempt([], at, fate);
    var more := if fate.NotRun? then [] else [op];
    assert t'.log == t.log + more;
    forall g: nat, reply: bool | g < |t'.flights| && Answered(t'.flights[g], reply) ensures Backed(t', ttl, g, reply) {
      if g == f {
        AnswerTellsWinner(t.log, op, a);
        assert Answers(t', ttl, f, reply, |t'.log| - 1);
      } else {
        BackingSurvives(t, t', ttl, g, reply, more);
      }
    }
  }

  lemma {:induction false} RunsAreConsistent(ttl: nat, steps: seq<TrafficStep>)
    ensures Consistent(After(ttl, steps), ttl)
  {
    if steps != [] {
      var before, last := After(ttl, steps[..|steps| - 1]), steps[|steps| - 1];
      RunsAreConsistent(ttl, steps[..|steps| - 1]);
      if Possible(before, last) {
        match last
        case Begin(clientId, nonce) => BeginKeeps(before, ttl, clientId, nonce);
        case Try(f, at, fate) => TryKeeps(before, ttl, f, at, fate);
      }
    }
  }

  /** One forward per client id and nonce and window: two requests with the same pair are a full window apart,
  however attempts
      interleave and even when lost answers made them repeat their operation. */
  lemma OncePerWindow(ttl: nat, steps: seq<TrafficStep>, f: nat, g: nat)
    requires var t := After(ttl, steps); f < |t.flights| && g < |t.flights| && f != g
    requires var t := After(ttl, steps); Answered(t.flights[f], true) && Answered(t.flights[g], true)
    requires var t := After(ttl, steps); SamePair(t.flights[f], t.flights[g])
    ensures var t := After(ttl, steps);
            t.flights[f].answeredAt + ttl <= t.flights[g].answeredAt
            || t.flights[g].answeredAt + ttl <= t.flights[f].answeredAt
  {
    RunsAreConsistent(ttl, steps);
    var t := After(ttl, steps);
    assert Backed(t, ttl, f, true) && Backed(t, ttl, g, true);
    var i: nat :| Answers(t, ttl, f, true, i);
    var j: nat :| Answers(t, ttl, g, true, j);
    if i < j {
      WinsAreApart(t.log, i, j);
    } else {
      WinsAreApart(t.log, j, i);
    }
  }

  /** The window is one per client id: one nonce under two client ids is two pairs, and both are forwarded, here
      at the same moment. */
  lemma OneWindowPerClient(ttl: nat, c: string, d: string, nonce: string)
    requires c != d && ':' !in c && ':' !in d
    ensures var t := After(ttl, [Begin(c, nonce), Begin(d, nonce), Try(0, 0, Fate.Answered), Try(1, 0, Fate.Answered)]);
      && |t.flights| == 2 && t.flights[0].clientId == c && t.flights[1].clientId == d
      && t.flights[0].nonce == nonce == t.flights[1].nonce
      && Answered(t.flights[0], true) && Answered(t.flights[1], true)
      && t.flights[0].answeredAt == t.flights[1].answeredAt
  {
    var s0, s1, s2, s3 := Begin(c, nonce), Begin(d, nonce), Try(0, 0, Fate.Answered), Try(1, 0, Fate.Answered);
    assert [s0][..0] == [] && [s0, s1][..1] == [s0] && [s0, s1, s2][..2] == [s0, s1];
    assert [s0, s1, s2, s3][..3] == [s0, s1, s2];
    var f, g := Flight(c, nonce, [], 0), Flight(d, nonce, [], 0);
    assert After(ttl, [s0]) == Traffic([], [] + [f]);
    var t2 := Traffic([], [f, g]);
    assert After(ttl, [s0, s1]) == t2;
    var op := SetOp(NonceKey(c, nonce), ttl, 0, 0);
    assert Moved(t2, ttl, s2).log == [op] && [op][..0] == [];
    assert NonceKey(d, nonce) !in Expiries([op]) by {
      if NonceKey(d, nonce) == NonceKey(c, nonce) {
        KeysInjective(c, nonce, d, nonce);
      }
    }
    assert [op] + [] == [op];
  }

  /** Two requests that forward the same token ask about the same nonce, each under its own client id. */
  lemma SameTokenSameNonce(a: HttpRequest, b: HttpRequest, parse: Parser)
    ensures match (Served(a, parse), Served(b, parse))
            case (Some(x), Some(y)) =>
              (x.outerRequestJws == y.outerRequestJws && Decide(a, parse).Ask? && Decide(b, parse).Ask?) ==>
                && Decide(a, parse).clientId == x.clientId && Decide(b, parse).clientId == y.clientId
                && Decide(a, parse).nonce == Decide(b, parse).nonce
            case _ => true
  {
    if Served(a, parse).Some? && Served(b, parse).Some? {
      AskedBeforeServed(a, parse);
      AskedBeforeServed(b, parse);
    }
  }

  /** A request answered 409 meets a key that was really used: some request, possibly this one in an attempt
      whose answer was lost, set the same key less than a window earlier. It asked about the same client id and
      nonce, unless the longer client id continues the shorter one with a colon. */
  lemma ConflictMeansUsed(ttl: nat, steps: seq<TrafficStep>, f: nat) returns (g: nat, i: nat)
    requires var t := After(ttl, steps); f < |t.flights| && Answered(t.flights[f], false)
    ensures var t := After(ttl, steps);
      && g < |t.flights| && i < |t.log| && t.log[i].caller == g
      && t.log[i].key == NonceKey(t.flights[g].clientId, t.flights[g].nonce) ==
           NonceKey(t.flights[f].clientId, t.flights[f].nonce)
      && Won(t.log, i) && t.flights[f].answeredAt < t.log[i].at + ttl
      && (SamePair(t.flights[f], t.flights[g]) || Overlapping(t.flights[f], t.flights[g])
          || Overlapping(t.flights[g], t.flights[f]))
  {
    RunsAreConsistent(ttl, steps);
    var t := After(ttl, steps);
    assert Backed(t, ttl, f, false);
    var j: nat :| Answers(t, ttl, f, false, j);
    HeldExactly(t.log[..j], t.log[j].key, t.log[j].at);
    i :| Holds(t.log[..j], i, t.log[j].key, t.log[j].at);
    assert t.log[..j][..i] == t.log[..i];
    g := t.log[i].caller;
    assert t.log[i] == OpOf(t, ttl, g, t.log[i].at);
    var (a, b) := if |t.flights[f].clientId| <= |t.flights[g].clientId| then (t.flights[f], t.flights[g])
                  else (t.flights[g], t.flights[f]);
    KeysCollideExactly(a.clientId, a.nonce, b.clientId, b.nonce);
  }

  predicate SamePair(a: Flight, b: Flight) {
    a.clientId == b.clientId && a.nonce == b.nonce
  }

  /** The longer client id continues the shorter with a colon and the front of its nonce. */
  ghost predicate Overlapping(a: Flight, b: Flight) {
    exists p :: b.clientId == a.clientId + ":" + p && a.nonce == p + ":" + b.nonce
  }

  /** A request can meet itself: the answer to its first attempt is lost, and its second is told that the nonce
      was used. It is never forwarded, and no other request was there. */
  lemma MeetsItself(ttl: nat, clientId: string, nonce: string, e: RedisRetry.RedisError)
    requires ttl > 1 && e.timeout
    ensures var t := After(ttl, [Begin(clientId, nonce), Try(0, 0, AnswerLost(e)), Try(0, 1, Fate.Answered)]);
            |t.flights| == 1 && Answered(t.flights[0], false)
  {
    var s0, s1, s2 := Begin(clientId, nonce), Try(0, 0, AnswerLost(e)), Try(0, 1, Fate.Answered);
    var flight, op := Flight(clientId, nonce, [], 0), SetOp(NonceKey(clientId, nonce), ttl, 0, 0);
    assert [s0][..0] == [] && [s0, s1][..1] == [s0] && [s0, s1, s2][..2] == [s0, s1];
    assert After(ttl, [s0]) == Traffic([], [] + [flight]);
    var t1 := Traffic([], [flight]);
    assert After(ttl, [s0, s1]) == Moved(t1, ttl, s1);
    assert AfterAttempt([], op, Attempt([], 0, AnswerLost(e))) == [op];
    assert flight.history + [Err(e)] == [Err(e)];
    assert Moved(t1, ttl, s1) == Traffic([op], [flight.(history := [Err(e)])]);
    assert [op][..0] == [] && [op] + [] == [op];
    assert Expiries([op]) == map[op.key := ttl];
  }
}
