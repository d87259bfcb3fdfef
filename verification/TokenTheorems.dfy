/** What every run of the fleet guarantees about the state tokens it has issued. */
module TokenTheorems {
  import opened Wrappers
  import opened Protocol
  import opened DeviceState
  import opened Operations
  import opened Worker
  import opened Fleet
  import opened SessionTheorems
  import opened StateInitService
  import opened StateChains

  /** The states some token was issued for. */
  function Issued(h: seq<Event>): set<StateRecord> {
    if h == [] then {}
    else
      Issued(h[..|h| - 1]) +
      match h[|h| - 1]
      case Initial(s) => {s}
      case Handled(_, _, _, _, _, _, _, _, _, Some(s)) => {s}
      case _ => {}
  }

  /** Nobody but the workers signs with the server key, and the HSM names the initial key. */
  predicate Honest(f: Fleet, step: Step) {
    match step
    case Handle(_, _, request, _) =>
      request.stateJws.signedBy.ServerSigningKey? && request.stateJws.payload.Some? ==>
        request.stateJws.payload.value in Issued(f.history)
    case Initialise(request, r) => GeneratedFor(request, r).Some? ==> GeneratedFor(request, r).value.Kid() != ""
    case _ => true
  }

  predicate HonestRun(steps: seq<Step>) {
    steps == [] || (HonestRun(steps[..|steps| - 1]) && Honest(Run(steps[..|steps| - 1]), steps[|steps| - 1]))
  }

  /** A re-issued state follows from the one its request carried. */
  predicate Follows(s: StateRecord, s': StateRecord, op: OperationId) {
    && (Wellformed(s) ==> Wellformed(s'))
    && (Wellformed(s) ==> CredentialsEvolve(s, s'))
    && |s'.hsmKeys| <= |s.hsmKeys| + if op.HsmGenerateKey? then 1 else 0
  }

  /** Kids are unique and non-empty, the one device key has at most one password file, and the keys number
      at most the given bound. */
  predicate GoodState(s: StateRecord, bound: nat) {
    && Wellformed(s)
    && |s.deviceKeys| == 1
    && |s.deviceKeys[0].passwordFiles| <= 1
    && |s.hsmKeys| <= bound
  }

  /** The dispatched result behind an issued token. */
  lemma IssuedByDispatch(cfg: WorkerConfig, w: WorkerId, cache: Sessions.CacheMap, request: HsmWorkerRequest,
                         r: Replies)
    requires EventOf(w, r, Process(cfg, cache, request, r)).Handled?
    requires EventOf(w, r, Process(cfg, cache, request, r)).issued.Some?
    ensures var p := Process(cfg, cache, request, r);
            var e := EventOf(w, r, p);
      && e.success && e.op == Some(p.input.value.innerRequest.requestType) && e.from == p.input.value.state
      && request.stateJws == Jws(request.stateJws.kid, ServerSigningKey, Some(e.from))
      && Dispatched(p.input.value, r.ports).Ok?
      && Dispatched(p.input.value, r.ports).value.state == e.issued
  {
    var p := Process(cfg, cache, request, r);
    ProcessShape(cfg, cache, request, r);
    FinishedFacts(cfg, cache, p.input.value, ContextFor(p.input.value), Dispatched(p.input.value, r.ports), r);
  }

  lemma DispatchFollows(ctx: OperationContext, ports: PortReplies)
    requires Dispatched(ctx, ports).Ok? && Dispatched(ctx, ports).value.state.Some?
    ensures Follows(ctx.state, Dispatched(ctx, ports).value.state.value, ctx.innerRequest.requestType)
  {
    EffectOf(ctx, ports);
    if Wellformed(ctx.state) {
      OperationRefines(ctx, ports);
    }
    DeleteShrinks(ctx.state, if ctx.innerRequest.data.Some? && ctx.innerRequest.data.value.asDeleteKey.Some?
                             then ctx.innerRequest.data.value.asDeleteKey.value else "");
    if ctx.innerRequest.requestType.RegisterFinish? || ctx.innerRequest.requestType.ChangePinFinish? {
      var code := if ctx.innerRequest.requestType.RegisterFinish?
                  then FindDeviceKey(ctx.state, ctx.deviceKid).value.devAuthorizationCode else None;
      SetPasswordFileEvolves(ctx.state, ctx.deviceKid, NewEntry(RegistrationOf(ctx, ports).value, ports), code);
    }
  }

  lemma DeleteShrinks(s: StateRecord, kid: string)
    ensures WithoutHsmKey(s, kid).Ok? ==> |WithoutHsmKey(s, kid).value.hsmKeys| == |s.hsmKeys| - 1
  {
  }

  /** The device a state belongs to. */
  function DeviceOf(s: StateRecord): Option<EcPublicJwk> {
    if |s.deviceKeys| == 1 then Some(s.deviceKeys[0].jwsPublicKey) else None
  }

  /** A successful HSM-mutating answer to a request that carried a state of the device. */
  predicate UsedOn(e: Event, device: Option<EcPublicJwk>) {
    e.Handled? && e.sessionId.Some? && AnswersHsm(e, e.sessionId.value) && DeviceOf(e.from) == device
  }

  /** The sessions that got one. */
  function SessionsUsedOn(h: seq<Event>, device: Option<EcPublicJwk>): set<SessionId> {
    if h == [] then {}
    else
      SessionsUsedOn(h[..|h| - 1], device) +
      if UsedOn(h[|h| - 1], device) then {h[|h| - 1].sessionId.value} else {}
  }

  /** Every issued state is good, with at most one HSM key more than sessions used on its device. */
  predicate AllGood(h: seq<Event>) {
    forall s :: s in Issued(h) ==> GoodState(s, 1 + |SessionsUsedOn(h, DeviceOf(s))|)
  }

  /** An event re-issues a state that follows from one issued before, or issues a good first one. */
  predicate IssuesProperly(h: seq<Event>, e: Event) {
    && (e.Initial? ==> GoodState(e.state, 1))
    && (e.Handled? && e.issued.Some? ==>
          && e.success && e.op.Some? && (e.op.value.HsmGenerateKey? ==> e.sessionId.Some?)
          && e.from in Issued(h) && Follows(e.from, e.issued.value, e.op.value))
  }

  lemma {:induction false} UsedSessionsAnswered(h: seq<Event>, device: Option<EcPublicJwk>, id: SessionId)
    requires id in SessionsUsedOn(h, device)
    ensures HsmAnswers(h, id) >= 1
  {
    if !(UsedOn(h[|h| - 1], device) && h[|h| - 1].sessionId == Some(id)) {
      UsedSessionsAnswered(h[..|h| - 1], device, id);
    }
  }

  /** A session is used on a device for the first time, if at all, because it answers once only. */
  lemma UsedSessionsGrow(h: seq<Event>, e: Event, device: Option<EcPublicJwk>)
    requires LegalHistory(h + [e])
    ensures |SessionsUsedOn(h + [e], device)| == |SessionsUsedOn(h, device)| + if UsedOn(e, device) then 1 else 0
  {
    assert (h + [e])[..|h|] == h;
    if UsedOn(e, device) {
      var id := e.sessionId.value;
      AnswersNeedMarks(h + [e], id);
      EachKindOnce(h + [e], id, Marking);
      if id in SessionsUsedOn(h, device) {
        UsedSessionsAnswered(h, device, id);
      }
    }
  }

  lemma NextIsGood(s: StateRecord, s': StateRecord, op: OperationId, bound: nat)
    requires GoodState(s, bound) && Follows(s, s', op)
    ensures GoodState(s', bound + if op.HsmGenerateKey? then 1 else 0) && DeviceOf(s') == DeviceOf(s)
  {
    assert EntryEvolves(s.deviceKeys[0], s'.deviceKeys[0]);
  }

  lemma EventKeepsAllGood(h: seq<Event>, e: Event)
    requires AllGood(h) && IssuesProperly(h, e) && LegalHistory(h + [e])
    ensures AllGood(h + [e])
  {
    assert (h + [e])[..|h|] == h;
    forall s | s in Issued(h + [e]) ensures GoodState(s, 1 + |SessionsUsedOn(h + [e], DeviceOf(s))|) {
      UsedSessionsGrow(h, e, DeviceOf(s));
      if s !in Issued(h) && e.Handled? {
        NextIsGood(e.from, s, e.op.value, 1 + |SessionsUsedOn(h, DeviceOf(e.from))|);
      }
    }
  }

  lemma HandleIssuesProperly(f: Fleet, w: WorkerId, cfg: WorkerConfig, request: HsmWorkerRequest, r: Replies)
    requires Honest(f, Handle(w, cfg, request, r))
    ensures IssuesProperly(f.history, EventOf(w, r, Process(cfg, WorkerOf(f, w).cache, request, r)))
  {
    var cache := WorkerOf(f, w).cache;
    var p := Process(cfg, cache, request, r);
    var e := EventOf(w, r, p);
    if e.Handled? && e.issued.Some? {
      IssuedByDispatch(cfg, w, cache, request, r);
      DispatchFollows(p.input.value, r.ports);
    }
  }

  lemma InitialiseIssuesProperly(h: seq<Event>, request: StateInitRequest, r: InitReplies)
    requires Initialized(request, r).Ok?
             && (GeneratedFor(request, r).Some? ==> GeneratedFor(request, r).value.Kid() != "")
    ensures IssuesProperly(h, Initial(Initialized(request, r).value.stateJws.payload.value))
  {
  }

  lemma StepKeepsAllGood(f: Fleet, step: Step)
    requires AllGood(f.history) && Honest(f, step) && LegalHistory(Stepped(f, step).history)
    ensures AllGood(Stepped(f, step).history)
  {
    match step
    case Handle(w, cfg, request, r) =>
      HandleIssuesProperly(f, w, cfg, request, r);
      EventKeepsAllGood(f.history, EventOf(w, r, Process(cfg, WorkerOf(f, w).cache, request, r)));
    case Initialise(request, r) =>
      if Initialized(request, r).Ok? {
        InitialiseIssuesProperly(f.history, request, r);
        EventKeepsAllGood(f.history, Initial(Initialized(request, r).value.stateJws.payload.value));
      }
    case Evict(_, _) =>
    case Restart(_, _) =>
  }

  /** Every run keeps it. */
  lemma {:induction false} IssuedStatesAreGood(steps: seq<Step>)
    requires AllowedRun(steps) && HonestRun(steps)
    ensures AllGood(Run(steps).history)
  {
    RunKeepsInvariant(steps);
    if steps != [] {
      IssuedStatesAreGood(steps[..|steps| - 1]);
      StepKeepsAllGood(Run(steps[..|steps| - 1]), steps[|steps| - 1]);
    }
  }

  /** So no state token of any run lists more HSM keys than one plus the sessions used on its device, each of
      which was authenticated. */
  lemma KeysBoundedBySessions(steps: seq<Step>, s: StateRecord)
    requires AllowedRun(steps) && HonestRun(steps)
    requires s in Issued(Run(steps).history)
    ensures var h := Run(steps).history;
      && |s.hsmKeys| <= 1 + |SessionsUsedOn(h, DeviceOf(s))|
      && SessionsUsedOn(h, DeviceOf(s)) <= IdsWith(h, Authenticating)
      && UniqueKids(HsmKids(s.hsmKeys))
      && |s.deviceKeys| == 1 && |s.deviceKeys[0].passwordFiles| <= 1
  {
    IssuedStatesAreGood(steps);
    RunKeepsInvariant(steps);
    UsedSessionsAuthenticated(Run(steps).history, DeviceOf(s));
  }

  /** For the fleet as a whole: no more than one plus the authentications so far. */
  lemma KeysBoundedByAuthentications(steps: seq<Step>, s: StateRecord)
    requires AllowedRun(steps) && HonestRun(steps)
    requires s in Issued(Run(steps).history)
    ensures |s.hsmKeys| <= 1 + Total(Run(steps).history, Authenticating)
  {
    KeysBoundedBySessions(steps, s);
    RunKeepsInvariant(steps);
    TotalCountsIds(Run(steps).history, Authenticating);
    SubsetSmaller(SessionsUsedOn(Run(steps).history, DeviceOf(s)), IdsWith(Run(steps).history, Authenticating));
  }

  lemma UsedSessionsAuthenticated(h: seq<Event>, device: Option<EcPublicJwk>)
    requires LegalHistory(h)
    ensures SessionsUsedOn(h, device) <= IdsWith(h, Authenticating)
  {
    forall id | id in SessionsUsedOn(h, device) ensures id in IdsWith(h, Authenticating) {
      UsedSessionsAnswered(h, device, id);
      AnswersNeedMarks(h, id);
      EachKindOnce(h, id, Marking);
      IdsAreCounted(h, Authenticating, id);
    }
  }
}
