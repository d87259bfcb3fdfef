/** Where the commands behind a stored token come from: the workers' history, through the answers the BFF took
    up. */
module Provenance {
  import opened Wrappers
  import opened Protocol
  import opened Operations
  import opened Worker
  import opened StateChains
  import opened Channels
  import opened Responses
  import opened Delivery
  import opened EndToEnd
  import opened StateInitService

  // === Who asked, and which answer came first ===

  predicate AsksFor(rs: seq<Registration>, id: string, client: string) {
    exists i :: 0 <= i < |rs| && rs[i].requestId == id && rs[i].stateKey == client
  }

  predicate IsHandlingOf(handled: seq<Handling>, k: nat, id: string) {
    k < |handled| && handled[k].requestId == id
  }

  /** The handling whose answer to the request was the first to arrive. */
  function FirstAnswer(handled: seq<Handling>, arrivals: seq<nat>, id: string): Option<nat> {
    if arrivals == [] then None
    else
      var before, last := FirstAnswer(handled, arrivals[..|arrivals| - 1], id), arrivals[|arrivals| - 1];
      if before.Some? then before
      else if IsHandlingOf(handled, last, id) then Some(last)
      else None
  }

  lemma {:induction false} FirstAnswerIs(handled: seq<Handling>, arrivals: seq<nat>, id: string)
    ensures FirstAnswer(handled, arrivals, id).None? <==>
              forall n :: 0 <= n < |arrivals| ==> !IsHandlingOf(handled, arrivals[n], id)
    ensures FirstAnswer(handled, arrivals, id).Some? ==>
              exists n :: 0 <= n < |arrivals| && arrivals[n] == FirstAnswer(handled, arrivals, id).value
                          && IsHandlingOf(handled, arrivals[n], id)
                          && forall m :: 0 <= m < n ==> !IsHandlingOf(handled, arrivals[m], id)
  {
    if arrivals != [] {
      var front, last := arrivals[..|arrivals| - 1], |arrivals| - 1;
      FirstAnswerIs(handled, front, id);
      if FirstAnswer(handled, front, id).Some? {
        var n :| 0 <= n < |front| && front[n] == FirstAnswer(handled, front, id).value
                 && IsHandlingOf(handled, front[n], id)
                 && forall m :: 0 <= m < n ==> !IsHandlingOf(handled, front[m], id);
        assert arrivals[n] == front[n];
        assert forall m :: 0 <= m < n ==> arrivals[m] == front[m];
      } else {
        assert forall m :: 0 <= m < last ==> arrivals[m] == front[m];
      }
    }
  }

  /** Later handlings do not change it, a later arrival only if none came before. */
  lemma {:induction false} FirstAnswerKeeps(handled: seq<Handling>, more: seq<Handling>, arrivals: seq<nat>, id: string)
    requires forall n :: 0 <= n < |arrivals| ==> arrivals[n] < |handled|
    ensures FirstAnswer(handled + more, arrivals, id) == FirstAnswer(handled, arrivals, id)
  {
    if arrivals != [] {
      FirstAnswerKeeps(handled, more, arrivals[..|arrivals| - 1], id);
    }
  }

  lemma FirstAnswerGrows(handled: seq<Handling>, arrivals: seq<nat>, k: nat, id: string)
    ensures FirstAnswer(handled, arrivals + [k], id) ==
            if FirstAnswer(handled, arrivals, id).Some? then FirstAnswer(handled, arrivals, id)
            else if IsHandlingOf(handled, k, id) then Some(k) else None
  {
    assert (arrivals + [k])[..|arrivals|] == arrivals;
  }

  // === What a trace of the run satisfies ===

  /** The command a successful operation stands for is fixed by its kind up to its data. */
  predicate CmdFits(op: OperationId, cmd: DeviceCmd) {
    && (cmd.AddKey? <==> op.HsmGenerateKey?)
    && (cmd.DropKey? <==> op.HsmDeleteKey?)
    && (cmd.SetPin? <==> op.RegisterFinish? || op.ChangePinFinish?)
    && (cmd.SetPin? ==> (cmd.consumeCode <==> op.RegisterFinish?))
  }

  /** A handling is one event of the workers' history: same request, same success, same states. */
  predicate EventAgrees(h: Handling, e: Fleet.Event) {
    && (h.success <==> e.Handled? && e.success)
    && (h.success ==> e.requestId == h.requestId && e.op.Some? && CmdFits(e.op.value, h.cmd))
    && (h.success ==> match e.issued
                      case None => h.cmd == NoChange
                      case Some(s) => Advances(e.from, h.cmd, s))
    && (!h.success ==> h.cmd == NoChange)
    && (h.changed <==> e.Handled? && e.commit.Some?)
    && (h.cmd != NoChange <==> e.Handled? && e.issued.Some?)
    && (h.reply.Some? && ClientSeesError(h.reply.value) ==> Traceless(h))
  }

  /** It changed neither a session nor the device. */
  predicate Traceless(h: Handling) {
    !h.changed && h.cmd == NoChange
  }

  predicate HistoryAgrees(handled: seq<Handling>, history: seq<Fleet.Event>) {
    && |handled| == |history|
    && forall k :: 0 <= k < |handled| ==> EventAgrees(handled[k], history[k])
  }

  /** Each call of `response_ready` brought the reply of a handling. */
  predicate ArrivalsAgree(handled: seq<Handling>, arrivals: seq<nat>, calls: seq<Call>) {
    && |arrivals| == |calls|
    && forall n :: 0 <= n < |arrivals| ==>
         && arrivals[n] < |handled| && handled[arrivals[n]].reply == Some(calls[n].response)
         && calls[n].response.requestId == handled[arrivals[n]].requestId
  }

  /** The first answer to a request of the client. */
  predicate FirstFor(w: World, client: string, k: nat) {
    && k < |w.handled|
    && AsksFor(w.bff.registrations, w.handled[k].requestId, client)
    && FirstAnswer(w.handled, w.arrivals, w.handled[k].requestId) == Some(k)
  }

  predicate Increasing(s: seq<nat>) {
    forall i, j :: 0 <= i < j < |s| ==> s[i] < s[j]
  }

  /** An account's log lists the first answers to its client's requests, in the order the workers gave them. */
  ghost predicate LogAgrees(w: World, client: string, a: Account) {
    && |a.events| == |a.log| && Increasing(a.events)
    && (forall i :: 0 <= i < |a.events| ==> a.events[i] < |w.handled| && a.log[i] == w.handled[a.events[i]].cmd)
    && (forall k: nat :: k in a.events <==> FirstFor(w, client, k))
  }

  predicate IsRegistered(rs: seq<Registration>, id: string) {
    exists i :: 0 <= i < |rs| && rs[i].requestId == id
  }

  /** Requests in the bag are those registered, by clients with an account; only they are handled. */
  ghost predicate IdsAgree(w: World) {
    && (forall id :: id in w.requests <==> IsRegistered(w.bff.registrations, id))
    && (forall i :: 0 <= i < |w.bff.registrations| ==> w.bff.registrations[i].stateKey in w.accounts)
    && (forall k :: 0 <= k < |w.handled| ==> w.handled[k].requestId in w.requests)
  }

  ghost predicate LogsAgree(w: World) {
    forall client :: client in w.accounts ==> LogAgrees(w, client, w.accounts[client])
  }

  /** Whatever is handled for a pending request came after everything its client has been credited with. */
  predicate IsLater(w: World, id: string)
    requires id in w.bff.service.pending
  {
    var client := w.bff.service.pending[id].stateKey;
    client in w.accounts ==>
      forall m, i :: 0 <= m < |w.handled| && w.handled[m].requestId == id && 0 <= i < |w.accounts[client].events| ==>
                       w.accounts[client].events[i] < m
  }

  predicate PendingIsLater(w: World) {
    forall id :: id in w.bff.service.pending ==> IsLater(w, id)
  }

  predicate EndsInSuccess(handled: seq<Handling>, a: Account) {
    a.events != [] && a.events[|a.events| - 1] < |handled| && handled[a.events[|a.events| - 1]].success
  }

  /** A save under way was brought by the last answer its client was credited with. */
  ghost predicate SavesAreLast(w: World) {
    forall client, k: nat :: Outstanding(w, client, k) && client in w.accounts ==>
      EndsInSuccess(w.handled, w.accounts[client])
  }

  ghost predicate Traced(w: World) {
    && HistoryAgrees(w.handled, Fleet.Run(w.fleetSteps).history)
    && ArrivalsAgree(w.handled, w.arrivals, w.bff.calls)
    && IdsAgree(w) && LogsAgree(w) && PendingIsLater(w) && SavesAreLast(w)
  }

  // === Each step keeps it ===

  /** What the trace is about has not changed. */
  ghost predicate SameTrace(w: World, w': World) {
    && Fleet.Run(w'.fleetSteps).history == Fleet.Run(w.fleetSteps).history
    && w'.handled == w.handled && w'.arrivals == w.arrivals && w'.requests == w.requests && w'.accounts == w.accounts
    && w'.bff.registrations == w.bff.registrations
    && w'.bff.service.pending == w.bff.service.pending && w'.bff.service.saves == w.bff.service.saves
    && |w'.bff.calls| == |w.bff.calls|
    && (forall n :: 0 <= n < |w.bff.calls| ==> w'.bff.calls[n].response == w.bff.calls[n].response)
    && w.executed <= w'.executed
  }

  lemma QuietKeeps(w: World, w': World)
    requires Traced(w) && SameTrace(w, w')
    ensures Traced(w')
  {
    forall client | client in w'.accounts ensures LogAgrees(w', client, w'.accounts[client]) {
      assert LogAgrees(w, client, w.accounts[client]);
      assert forall k: nat :: FirstFor(w', client, k) <==> FirstFor(w, client, k);
    }
    forall id | id in w'.bff.service.pending ensures IsLater(w', id) {
      assert IsLater(w, id);
    }
    assert forall client, k: nat :: Outstanding(w', client, k) ==> Outstanding(w, client, k);
  }

  lemma RunGrows(steps: seq<Fleet.Step>, step: Fleet.Step)
    ensures Fleet.Run(steps + [step]) == Fleet.Stepped(Fleet.Run(steps), step)
  {
    assert (steps + [step])[..|steps|] == steps;
  }

  lemma WaitersSame(w: World, s: BffStep)
    requires Possible(w, Waiters(s))
    ensures SameTrace(w, Advanced(w, Waiters(s)))
  {
    WaitersFrame(w.bff, s);
  }

  lemma StoreStepSame(w: World, step: WorldStep)
    requires Possible(w, step) && (step.RunSave? || step.ForgetState?)
    ensures SameTrace(w, Advanced(w, step))
  {
  }

  lemma WorkerLossSame(w: World, s: Fleet.Step)
    requires Possible(w, WorkerLoss(s))
    ensures SameTrace(w, Advanced(w, WorkerLoss(s)))
  {
    RunGrows(w.fleetSteps, s);
  }

  lemma QuietStepKeeps(w: World, step: WorldStep)
    requires Traced(w) && Possible(w, step)
    requires step.RunSave? || step.ForgetState? || step.Waiters? || step.WorkerLoss?
    ensures Traced(Advanced(w, step))
  {
    if step.Waiters? {
      WaitersSame(w, step.bffStep);
    } else if step.WorkerLoss? {
      WorkerLossSame(w, step.fleetStep);
    } else {
      StoreStepSame(w, step);
    }
    QuietKeeps(w, Advanced(w, step));
  }

  lemma EnrolTraced(w: World, step: WorldStep)
    requires Sound(w) && Traced(w) && Possible(w, step) && step.Enrol?
    ensures Traced(Advanced(w, step))
  {
    var w' := Advanced(w, step);
    InitialStateShape(step.init, step.initReplies);
    EnrolledTraces(w, w', step.client);
  }

  lemma EnrolledTraces(w: World, w': World, client: string)
    requires Fits(w) && Traced(w) && EnrolledOnly(w, w', client)
    requires w'.arrivals == w.arrivals && w'.fleetSteps == w.fleetSteps
    requires w'.accounts[client].events == [] && w'.accounts[client].log == []
    ensures Traced(w')
  {
    EnrolledLogs(w, w', client);
    EnrolledOthers(w, w', client);
  }

  lemma EnrolledOthers(w: World, w': World, client: string)
    requires Fits(w) && PendingIsLater(w) && SavesAreLast(w) && EnrolledOnly(w, w', client)
    ensures PendingIsLater(w') && SavesAreLast(w')
  {
    forall id | id in w'.bff.service.pending ensures IsLater(w', id) {
      assert IsLater(w, id) && PendingFits(w, id);
    }
    forall c, k: nat | Outstanding(w', c, k) && c in w'.accounts ensures EndsInSuccess(w'.handled, w'.accounts[c]) {
      assert Outstanding(w, c, k) && OutstandingFits(w, c, k);
    }
  }

  lemma EnrolledLogs(w: World, w': World, client: string)
    requires IdsAgree(w) && LogsAgree(w) && EnrolledOnly(w, w', client) && w'.arrivals == w.arrivals
    requires w'.accounts[client].events == [] && w'.accounts[client].log == []
    ensures LogsAgree(w')
  {
    forall c | c in w'.accounts ensures LogAgrees(w', c, w'.accounts[c]) {
      assert forall k: nat :: FirstFor(w', c, k) <==> FirstFor(w, c, k);
      if c != client {
        assert LogAgrees(w, c, w.accounts[c]);
      }
    }
  }

  lemma AsksForGrows(rs: seq<Registration>, r: Registration, id: string, client: string)
    ensures AsksFor(rs + [r], id, client) <==> AsksFor(rs, id, client) || (r.requestId == id && r.stateKey == client)
    ensures IsRegistered(rs + [r], id) <==> IsRegistered(rs, id) || r.requestId == id
  {
    assert (rs + [r])[|rs|] == r;
    if AsksFor(rs, id, client) {
      var i :| 0 <= i < |rs| && rs[i].requestId == id && rs[i].stateKey == client;
      assert (rs + [r])[i] == rs[i];
    }
    if IsRegistered(rs, id) {
      var i :| 0 <= i < |rs| && rs[i].requestId == id;
      assert (rs + [r])[i] == rs[i];
    }
  }

  lemma SendTraced(w: World, step: WorldStep)
    requires Traced(w) && Possible(w, step) && step.Send?
    ensures Traced(Advanced(w, step))
  {
    var w' := Advanced(w, step);
    SentTraces(w, w', Registration(step.requestId, step.client, DEFAULT_TTL_SECONDS));
  }

  lemma SentTraces(w: World, w': World, r: Registration)
    requires Traced(w) && SentOnly(w, w', r.stateKey, r.requestId) && r.stateKey in w.accounts
    requires w'.bff.registrations == w.bff.registrations + [r] && w'.bff.calls == w.bff.calls
    requires w'.arrivals == w.arrivals && w'.fleetSteps == w.fleetSteps
    ensures Traced(w')
  {
    forall id ensures id in w'.requests <==> IsRegistered(w'.bff.registrations, id) {
      AsksForGrows(w.bff.registrations, r, id, r.stateKey);
    }
    SentLogs(w, w', r);
    forall id | id in w'.bff.service.pending ensures IsLater(w', id) {
      assert id != r.requestId ==> IsLater(w, id);
    }
    SameOutstanding(w, w');
  }

  lemma SentLogs(w: World, w': World, r: Registration)
    requires IdsAgree(w) && LogsAgree(w) && SentOnly(w, w', r.stateKey, r.requestId)
    requires w'.bff.registrations == w.bff.registrations + [r] && w'.arrivals == w.arrivals
    ensures LogsAgree(w')
  {
    forall client | client in w'.accounts ensures LogAgrees(w', client, w'.accounts[client]) {
      assert LogAgrees(w, client, w.accounts[client]);
      forall k: nat ensures FirstFor(w', client, k) <==> FirstFor(w, client, k) {
        if k < |w.handled| {
          AsksForGrows(w.bff.registrations, r, w.handled[k].requestId, client);
        }
      }
    }
  }

  /** What a worker makes of a request is the event it adds to the history. */
  lemma HandlingIsEvent(worker: Fleet.WorkerId, cache: Sessions.CacheMap, cfg: WorkerConfig, request: HsmWorkerRequest,
                        r: Replies)
    ensures EventAgrees(HandlingOf(cache, cfg, request, r), Fleet.EventOf(worker, r, Process(cfg, cache, request, r)))
  {
    var p := Process(cfg, cache, request, r);
    ProcessShape(cfg, cache, request, r);
    CommitChangesCache(cfg, cache, request, r);
    FailureAtomicity(cfg, cache, request, r);
    if p.input.Some? {
      var ctx := p.input.value;
      FinishedFacts(cfg, cache, ctx, ContextFor(ctx), Dispatched(ctx, r.ports), r);
      if p.result.Ok? {
        SuccessIs(ctx, r.ports);
      }
    }
  }

  lemma SuccessIs(ctx: OperationContext, ports: PortReplies)
    requires Dispatched(ctx, ports).Ok?
    ensures CmdFits(ctx.innerRequest.requestType, CmdOf(ctx, ports))
    ensures match Dispatched(ctx, ports).value.state
            case None => CmdOf(ctx, ports) == NoChange
            case Some(s) => CmdOf(ctx, ports) != NoChange && Advances(ctx.state, CmdOf(ctx, ports), s)
  {
    SuccessFits(ctx, ports);
    EffectOf(ctx, ports);
  }

  lemma HistoryGrows(handled: seq<Handling>, history: seq<Fleet.Event>, h: Handling, e: Fleet.Event)
    requires HistoryAgrees(handled, history) && EventAgrees(h, e)
    ensures HistoryAgrees(handled + [h], history + [e])
  {
  }

  lemma WorkTraced(w: World, step: WorldStep)
    requires Sound(w) && Traced(w) && Possible(w, step) && step.Work?
    ensures Traced(Advanced(w, step))
  {
    var request, cache := w.requests[step.requestId], CacheOf(w, step.worker);
    var h := HandlingOf(cache, step.cfg, request, step.replies);
    HandlingIsEvent(step.worker, cache, step.cfg, request, step.replies);
    HandledHistory(w.fleetSteps, step.worker, step.cfg, request, step.replies);
    HistoryGrows(w.handled, Fleet.Run(w.fleetSteps).history, h,
                 Fleet.EventOf(step.worker, step.replies, Process(step.cfg, cache, request, step.replies)));
    assert h.requestId == request.requestId == step.requestId;
    WorkedKeeps(w, Advanced(w, step), h);
  }

  lemma HandledHistory(steps: seq<Fleet.Step>, worker: Fleet.WorkerId, cfg: WorkerConfig, request: HsmWorkerRequest,
                       r: Replies)
    ensures var f := Fleet.Run(steps);
            Fleet.Run(steps + [Fleet.Handle(worker, cfg, request, r)]).history ==
            f.history + [Fleet.EventOf(worker, r, Process(cfg, Fleet.WorkerOf(f, worker).cache, request, r))]
  {
    RunGrows(steps, Fleet.Handle(worker, cfg, request, r));
  }

  /** One more handling, answered to nobody yet. */
  lemma WorkedKeeps(w: World, w': World, h: Handling)
    requires Traced(w) && w'.handled == w.handled + [h] && h.requestId in w.requests
    requires HistoryAgrees(w'.handled, Fleet.Run(w'.fleetSteps).history)
    requires w'.bff == w.bff && w'.arrivals == w.arrivals && w'.requests == w.requests && w'.accounts == w.accounts
    requires w'.executed == w.executed
    ensures Traced(w')
  {
    WorkedLogs(w, w', h);
    WorkedPending(w, w', h);
    SameOutstanding(w, w');
  }

  lemma WorkedLogs(w: World, w': World, h: Handling)
    requires ArrivalsAgree(w.handled, w.arrivals, w.bff.calls) && LogsAgree(w)
    requires w'.handled == w.handled + [h] && w'.bff == w.bff && w'.arrivals == w.arrivals && w'.accounts == w.accounts
    ensures LogsAgree(w')
  {
    forall client | client in w'.accounts ensures LogAgrees(w', client, w'.accounts[client]) {
      assert LogAgrees(w, client, w.accounts[client]);
      forall k: nat ensures FirstFor(w', client, k) <==> FirstFor(w, client, k) {
        WorkedFirst(w, w', h, client, k);
      }
    }
  }

  lemma WorkedPending(w: World, w': World, h: Handling)
    requires LogsAgree(w) && PendingIsLater(w)
    requires w'.handled == w.handled + [h] && w'.bff == w.bff && w'.accounts == w.accounts
    ensures PendingIsLater(w')
  {
    forall id | id in w'.bff.service.pending ensures IsLater(w', id) {
      assert IsLater(w, id);
      var client := w.bff.service.pending[id].stateKey;
      assert client in w.accounts ==> LogAgrees(w, client, w.accounts[client]);
    }
  }

  lemma WorkedFirst(w: World, w': World, h: Handling, client: string, k: nat)
    requires ArrivalsAgree(w.handled, w.arrivals, w.bff.calls)
    requires w'.handled == w.handled + [h] && w'.bff == w.bff && w'.arrivals == w.arrivals
    ensures FirstFor(w', client, k) <==> FirstFor(w, client, k)
  {
    if k < |w'.handled| {
      var id := w'.handled[k].requestId;
      FirstAnswerKeeps(w.handled, [h], w.arrivals, id);
      FirstAnswerIs(w.handled, w.arrivals, id);
    }
  }

  /** A request in the bag is pending exactly while no answer to it has arrived. */
  lemma PendingUntilAnswered(w: World, id: string)
    requires Consistent(w.bff) && ArrivalsAgree(w.handled, w.arrivals, w.bff.calls) && IdsAgree(w) && id in w.requests
    ensures id in w.bff.service.pending <==> FirstAnswer(w.handled, w.arrivals, id).None?
  {
    FirstAnswerIs(w.handled, w.arrivals, id);
    var i :| 0 <= i < |w.bff.registrations| && w.bff.registrations[i].requestId == id;
    assert Answered(w.bff.calls, id) <==>
             exists n :: 0 <= n < |w.arrivals| && IsHandlingOf(w.handled, w.arrivals[n], id);
  }

  /** What the arrival of handling `k`'s reply changes whatever becomes of it. */
  ghost predicate ArrivedOnly(w: World, w': World, k: nat) {
    && k < |w.handled| && w.handled[k].reply.Some? && w.handled[k].reply.value.requestId == w.handled[k].requestId
    && w'.fleetSteps == w.fleetSteps && w'.handled == w.handled && w'.requests == w.requests
    && w'.executed == w.executed
    && w'.arrivals == w.arrivals + [k]
    && w'.bff.registrations == w.bff.registrations
    && |w'.bff.calls| == |w.bff.calls| + 1 && w'.bff.calls[..|w.bff.calls|] == w.bff.calls
    && w'.bff.calls[|w.bff.calls|].response == w.handled[k].reply.value
    && w'.accounts.Keys == w.accounts.Keys
  }

  lemma ArrivalsGrow(w: World, w': World, k: nat)
    requires ArrivalsAgree(w.handled, w.arrivals, w.bff.calls) && ArrivedOnly(w, w', k)
    ensures ArrivalsAgree(w'.handled, w'.arrivals, w'.bff.calls)
  {
    forall n | 0 <= n < |w.arrivals| ensures w'.bff.calls[n] == w.bff.calls[n] {
      assert w'.bff.calls[..|w.bff.calls|][n] == w.bff.calls[n];
    }
  }

  /** A later answer: the request had one already, and nothing is credited. */
  lemma LateArrivalTraces(w: World, w': World, k: nat)
    requires Traced(w) && ArrivedOnly(w, w', k)
    requires FirstAnswer(w.handled, w.arrivals, w.handled[k].requestId).Some?
    requires w'.accounts == w.accounts && w'.bff.service == w.bff.service
    ensures Traced(w')
  {
    ArrivalsGrow(w, w', k);
    forall client | client in w'.accounts ensures LogAgrees(w', client, w'.accounts[client]) {
      assert LogAgrees(w, client, w.accounts[client]);
      forall j: nat ensures FirstFor(w', client, j) <==> FirstFor(w, client, j) {
        if j < |w.handled| {
          FirstAnswerGrows(w.handled, w.arrivals, k, w.handled[j].requestId);
        }
      }
    }
    forall id | id in w'.bff.service.pending ensures IsLater(w', id) {
      assert IsLater(w, id);
    }
    SameOutstanding(w, w');
  }

  /** The first answer: its client is credited with it. */
  ghost predicate CreditedOnly(w: World, w': World, k: nat, client: string) {
    && ArrivedOnly(w, w', k)
    && FirstAnswer(w.handled, w.arrivals, w.handled[k].requestId).None?
    && client in w.accounts && w'.accounts == w.accounts[client := w'.accounts[client]]
    && w'.accounts[client].log == w.accounts[client].log + [w.handled[k].cmd]
    && w'.accounts[client].events == w.accounts[client].events + [k]
    && (forall c :: AsksFor(w.bff.registrations, w.handled[k].requestId, c) <==> c == client)
    && (forall i :: 0 <= i < |w.accounts[client].events| ==> w.accounts[client].events[i] < k)
  }

  lemma CreditedFirst(w: World, w': World, k: nat, client: string, c: string, j: nat)
    requires CreditedOnly(w, w', k, client)
    ensures FirstFor(w', c, j) <==> FirstFor(w, c, j) || (c == client && j == k)
  {
    if j < |w.handled| {
      FirstAnswerGrows(w.handled, w.arrivals, k, w.handled[j].requestId);
      FirstAnswerIs(w.handled, w.arrivals, w.handled[j].requestId);
    }
  }

  lemma CreditedLog(w: World, w': World, k: nat, client: string, c: string)
    requires CreditedOnly(w, w', k, client) && c in w.accounts && LogAgrees(w, c, w.accounts[c])
    ensures LogAgrees(w', c, w'.accounts[c])
  {
    forall j: nat ensures FirstFor(w', c, j) <==> FirstFor(w, c, j) || (c == client && j == k) {
      CreditedFirst(w, w', k, client, c, j);
    }
  }

  lemma CreditedLogs(w: World, w': World, k: nat, client: string)
    requires LogsAgree(w) && CreditedOnly(w, w', k, client)
    ensures LogsAgree(w')
  {
    forall c | c in w'.accounts ensures LogAgrees(w', c, w'.accounts[c]) {
      CreditedLog(w, w', k, client, c);
    }
  }

  lemma CreditedPending(w: World, w': World, k: nat, client: string, more: seq<Save>)
    requires Fits(w) && PendingIsLater(w) && CreditedOnly(w, w', k, client)
    requires AcceptedOnly(w, w', w.handled[k], client, more)
    ensures PendingIsLater(w')
  {
    assert PendingFits(w, w.handled[k].requestId);
    forall other | other in w'.bff.service.pending ensures IsLater(w', other) {
      assert IsLater(w, other);
      assert w.bff.service.pending[other].stateKey != client;
    }
  }

  lemma CreditedSaves(w: World, w': World, k: nat, client: string, more: seq<Save>)
    requires Fits(w) && SavesAreLast(w) && CreditedOnly(w, w', k, client)
    requires AcceptedOnly(w, w', w.handled[k], client, more) && (more != [] ==> w.handled[k].success)
    ensures SavesAreLast(w')
  {
    assert NothingOutstanding(w, client) by { assert PendingFits(w, w.handled[k].requestId); }
    OutstandingAfterAccept(w, w', client, more);
    assert more != [] ==> EndsInSuccess(w'.handled, w'.accounts[client]);
    forall c, n: nat | Outstanding(w', c, n) && c in w'.accounts ensures EndsInSuccess(w'.handled, w'.accounts[c]) {
      if c != client {
        assert Outstanding(w, c, n);
      }
    }
  }

  lemma CreditTraces(w: World, w': World, k: nat, client: string, more: seq<Save>)
    requires Fits(w) && Traced(w) && CreditedOnly(w, w', k, client)
    requires AcceptedOnly(w, w', w.handled[k], client, more) && (more != [] ==> w.handled[k].success)
    ensures Traced(w')
  {
    ArrivalsGrow(w, w', k);
    CreditedLogs(w, w', k, client);
    CreditedPending(w, w', k, client, more);
    CreditedSaves(w, w', k, client, more);
  }

  lemma ArriveIs(w: World, k: nat)
    requires Fits(w) && Possible(w, Accept(k))
    ensures ArrivedOnly(w, Advanced(w, Accept(k)), k)
  {
    assert w.handled[k] in w.handled && ReplyAgrees(w.requests, w.handled[k]);
    var w' := Advanced(w, Accept(k));
    if w.handled[k].requestId in w.bff.service.pending {
      CreditedAgrees(w, k);
    }
    assert w'.bff.calls[..|w.bff.calls|] == w.bff.calls;
  }

  lemma CreditAccounts(w: World, k: nat)
    requires Fits(w) && Possible(w, Accept(k)) && w.handled[k].requestId in w.bff.service.pending
    ensures var accounts := Advanced(w, Accept(k)).accounts;
            var client := w.bff.service.pending[w.handled[k].requestId].stateKey;
      && client in w.accounts && client in accounts && accounts == w.accounts[client := accounts[client]]
      && accounts[client].log == w.accounts[client].log + [w.handled[k].cmd]
      && accounts[client].events == w.accounts[client].events + [k]
  {
    CreditedAgrees(w, k);
  }

  lemma CreditIs(w: World, k: nat)
    requires Sound(w) && PendingIsLater(w)
    requires Possible(w, Accept(k)) && w.handled[k].requestId in w.bff.service.pending
    requires FirstAnswer(w.handled, w.arrivals, w.handled[k].requestId).None?
    ensures CreditedOnly(w, Advanced(w, Accept(k)), k, w.bff.service.pending[w.handled[k].requestId].stateKey)
  {
    assert ArrivedOnly(w, Advanced(w, Accept(k)), k) by { ArriveIs(w, k); }
    CreditAccounts(w, k);
    PendingIsAsked(w, w.handled[k].requestId);
    assert IsLater(w, w.handled[k].requestId);
  }

  lemma AcceptTraced(w: World, k: nat)
    requires Sound(w) && Traced(w) && Possible(w, Accept(k))
    ensures Traced(Advanced(w, Accept(k)))
  {
    var w', item := Advanced(w, Accept(k)), w.handled[k];
    assert item in w.handled && ReplyAgrees(w.requests, item);
    PendingUntilAnswered(w, item.requestId);
    ArriveIs(w, k);
    if item.requestId in w.bff.service.pending {
      var entry := w.bff.service.pending[item.requestId];
      CreditIs(w, k);
      AcceptIs(w, k);
      CreditTraces(w, w', k, entry.stateKey, SaveFor(entry, item));
    } else {
      LateArrivalTraces(w, w', k);
    }
  }

  /** A pending request was asked for by one client, the one its entry names. */
  lemma PendingIsAsked(w: World, id: string)
    requires Consistent(w.bff) && id in w.bff.service.pending
    ensures forall c :: AsksFor(w.bff.registrations, id, c) <==> c == w.bff.service.pending[id].stateKey
  {
    var rs, entry := w.bff.registrations, w.bff.service.pending[id];
    assert rs[entry.tx] == Registration(id, entry.stateKey, entry.ttlSeconds);
  }

  lemma {:induction false} RunsAreTraced(responseTtl: nat, steps: seq<WorldStep>)
    ensures Traced(WorldAfter(responseTtl, steps))
  {
    if steps != [] {
      var front := steps[..|steps| - 1];
      RunsAreTraced(responseTtl, front);
      RunsAreSound(responseTtl, front);
      StepTraced(WorldAfter(responseTtl, front), steps[|steps| - 1]);
    }
  }

  lemma StepTraced(w: World, step: WorldStep)
    requires Sound(w) && Traced(w)
    ensures Possible(w, step) ==> Traced(Advanced(w, step))
  {
    if Possible(w, step) {
      match step
      case Enrol(_, _, _) => EnrolTraced(w, step);
      case Send(_, _, _, _) => SendTraced(w, step);
      case Work(_, _, _, _) => WorkTraced(w, step);
      case Accept(k) => AcceptTraced(w, k);
      case _ => QuietStepKeeps(w, step);
    }
  }

  // === Ascending lists ===

  /** The members below `n`, smallest first. */
  function Ascending(s: set<nat>, n: nat): seq<nat> {
    if n == 0 then []
    else if n - 1 in s then Ascending(s, n - 1) + [n - 1]
    else Ascending(s, n - 1)
  }

  function Kept(events: seq<nat>, s: set<nat>): seq<nat> {
    if events == [] then []
    else
      var front, last := Kept(events[..|events| - 1], s), events[|events| - 1];
      if last in s then front + [last] else front
  }

  lemma {:induction false} KeptWithin(events: seq<nat>, s: set<nat>)
    ensures forall k :: k in Kept(events, s) ==> k in events && k in s
  {
    if events != [] {
      KeptWithin(events[..|events| - 1], s);
    }
  }

  lemma KeptGrows(front: seq<nat>, k: nat, s: set<nat>)
    ensures Kept(front + [k], s) == if k in s then Kept(front, s) + [k] else Kept(front, s)
  {
    assert (front + [k])[..|front|] == front;
  }

  predicate Within(ks: seq<nat>, n: nat) {
    forall i :: 0 <= i < |ks| ==> ks[i] < n
  }

  function Members(ks: seq<nat>): set<nat> {
    set k | k in ks
  }

  lemma {:induction false} AscendingSame(s: set<nat>, t: set<nat>, n: nat)
    requires forall k: nat :: k < n ==> (k in s <==> k in t)
    ensures Ascending(s, n) == Ascending(t, n)
  {
    if n > 0 {
      AscendingSame(s, t, n - 1);
    }
  }

  lemma {:induction false} KeptIsAscending(events: seq<nat>, s: set<nat>, n: nat)
    requires Increasing(events) && Within(events, n)
    ensures Kept(events, s) == Ascending(Members(events) * s, n)
  {
    if n > 0 && n - 1 in events {
      var front := events[..|events| - 1];
      LastIsLargest(events, n - 1);
      KeptIsAscending(front, s, n - 1);
      KeptGrows(front, n - 1, s);
      AscendingGrows(front, n - 1, s);
    } else if n > 0 {
      WithinLess(events, n - 1);
      KeptIsAscending(events, s, n - 1);
    }
  }

  lemma AscendingGrows(front: seq<nat>, k: nat, s: set<nat>)
    ensures Ascending(Members(front + [k]) * s, k + 1) ==
            if k in s then Ascending(Members(front) * s, k) + [k] else Ascending(Members(front) * s, k)
  {
    var grown := Members(front + [k]) * s;
    assert (front + [k])[|front|] == k;
    forall j: nat | j < k ensures j in grown <==> j in Members(front) * s {
      assert j in front + [k] <==> j in front;
    }
    AscendingSame(Members(front) * s, grown, k);
  }

  lemma WithinLess(ks: seq<nat>, n: nat)
    requires Within(ks, n + 1) && n !in ks
    ensures Within(ks, n)
  {
    forall i | 0 <= i < |ks| ensures ks[i] < n {
      assert ks[i] in ks;
    }
  }

  lemma LastIsLargest(events: seq<nat>, k: nat)
    requires Increasing(events) && Within(events, k + 1) && k in events
    ensures var front := events[..|events| - 1];
      events == front + [k] && Increasing(front) && Within(front, k)
  {
    var i :| 0 <= i < |events| && events[i] == k;
    assert events[i] <= events[|events| - 1] <= k;
  }

  function CmdsAt(handled: seq<Handling>, ks: seq<nat>): seq<DeviceCmd>
    requires Within(ks, |handled|)
  {
    seq(|ks|, i requires 0 <= i < |ks| => handled[ks[i]].cmd)
  }

  lemma FoldGrows(d: DeviceView, handled: seq<Handling>, ks: seq<nat>, k: nat)
    requires Within(ks + [k], |handled|)
    ensures k < |handled| && Within(ks, |handled|)
    ensures Folded(d, CmdsAt(handled, ks + [k])) == Applied(Folded(d, CmdsAt(handled, ks)), handled[k].cmd)
  {
    assert (ks + [k])[|ks|] == k;
    assert forall i :: 0 <= i < |ks| ==> (ks + [k])[i] == ks[i];
    assert CmdsAt(handled, ks + [k]) == CmdsAt(handled, ks) + [handled[k].cmd];
    FoldSnoc(d, CmdsAt(handled, ks), handled[k].cmd);
  }

  lemma WithinKept(events: seq<nat>, s: set<nat>, n: nat)
    requires Within(events, n)
    ensures Within(Kept(events, s), n)
  {
    KeptWithin(events, s);
    forall i | 0 <= i < |Kept(events, s)| ensures Kept(events, s)[i] < n {
      assert Kept(events, s)[i] in events;
    }
  }

  /** Leaving out what changes nothing leaves the fold as it is. */
  lemma {:induction false} FoldKept(d: DeviceView, handled: seq<Handling>, events: seq<nat>, s: set<nat>)
    requires Within(events, |handled|)
    requires forall i :: 0 <= i < |events| && events[i] !in s ==> handled[events[i]].cmd == NoChange
    ensures Within(Kept(events, s), |handled|)
    ensures Folded(d, CmdsAt(handled, Kept(events, s))) == Folded(d, CmdsAt(handled, events))
  {
    WithinKept(events, s, |handled|);
    if events != [] {
      var front, last := events[..|events| - 1], events[|events| - 1];
      assert events == front + [last];
      FoldKept(d, handled, front, s);
      FoldGrows(d, handled, front, last);
      KeptGrows(front, last, s);
      if last in s {
        FoldGrows(d, handled, Kept(front, s), last);
      }
    }
  }

  // === What every run guarantees ===

  function Successes(w: World): set<nat> {
    set k | 0 <= k < |w.handled| && w.handled[k].success
  }

  /** The handlings that succeeded and whose answer to a request of the client was the first to arrive, in the
      order of the workers' history. */
  function FirstSuccesses(w: World, client: string): seq<nat> {
    Ascending(set k | k in Successes(w) && FirstFor(w, client, k), |w.handled|)
  }

  lemma {:induction false} AscendingWithin(s: set<nat>, n: nat)
    ensures Within(Ascending(s, n), n)
  {
    if n > 0 {
      AscendingWithin(s, n - 1);
    }
  }

  lemma LogIsKept(w: World, client: string)
    requires Traced(w) && client in w.accounts
    ensures var a := w.accounts[client];
      && Within(a.events, |w.handled|) && a.log == CmdsAt(w.handled, a.events)
      && Kept(a.events, Successes(w)) == FirstSuccesses(w, client)
      && (forall i :: 0 <= i < |a.events| && a.events[i] !in Successes(w) ==> w.handled[a.events[i]].cmd == NoChange)
  {
    var a := w.accounts[client];
    assert LogAgrees(w, client, a);
    forall i | 0 <= i < |a.events| && a.events[i] !in Successes(w) ensures w.handled[a.events[i]].cmd == NoChange {
      assert EventAgrees(w.handled[a.events[i]], Fleet.Run(w.fleetSteps).history[a.events[i]]);
    }
    KeptIsAscending(a.events, Successes(w), |w.handled|);
    AscendingSame(Members(a.events) * Successes(w), set k | k in Successes(w) && FirstFor(w, client, k), |w.handled|);
  }

  /** What is left out of a log because it changes nothing does not change its fold, nor that of the log
      without its last entry, if that one is kept. */
  lemma KeptFolds(d: DeviceView, handled: seq<Handling>, events: seq<nat>, s: set<nat>)
    requires Within(events, |handled|)
    requires forall i :: 0 <= i < |events| && events[i] !in s ==> handled[events[i]].cmd == NoChange
    ensures var log, kept := CmdsAt(handled, events), Kept(events, s);
      && Within(kept, |handled|)
      && Folded(d, CmdsAt(handled, kept)) == Folded(d, log)
      && (events != [] && events[|events| - 1] in s ==>
            kept != [] && Folded(d, CmdsAt(handled, kept)[..|kept| - 1]) == Folded(d, log[..|log| - 1]))
  {
    FoldKept(d, handled, events, s);
    if events != [] {
      var front := events[..|events| - 1];
      FoldKept(d, handled, front, s);
      assert CmdsAt(handled, front) == CmdsAt(handled, events)[..|events| - 1];
      if events[|events| - 1] in s {
        assert CmdsAt(handled, Kept(events, s))[..|Kept(events, s)| - 1] == CmdsAt(handled, Kept(front, s));
      }
    }
  }

  /** The commands of the first successes, folded over a device, are the account's log folded over it. */
  lemma LogFoldsToSuccesses(w: World, client: string, d: DeviceView)
    requires Traced(w) && client in w.accounts
    ensures var a, done := w.accounts[client], FirstSuccesses(w, client);
      && Within(done, |w.handled|)
      && Folded(d, CmdsAt(w.handled, done)) == Folded(d, a.log)
      && (EndsInSuccess(w.handled, a) ==>
            a.log != [] && done != []
            && Folded(d, CmdsAt(w.handled, done)[..|done| - 1]) == Folded(d, a.log[..|a.log| - 1]))
  {
    LogIsKept(w, client);
    KeptFolds(d, w.handled, w.accounts[client].events, Successes(w));
  }

  /** End-to-end refinement: in every run, whatever is redelivered, reordered or lost, a stored token decodes to
      the client's first state with the commands of its successful operations folded over it, in the order in
      which the workers did them, taking one success per request: the one whose answer was the first to arrive.
      While a save is under way the store lags by exactly the last one. */
  lemma StoredStateIsTheHistory(responseTtl: nat, steps: seq<WorldStep>, client: string)
    requires client in WorldAfter(responseTtl, steps).store
    ensures var w := WorldAfter(responseTtl, steps);
            var done := FirstSuccesses(w, client);
      && HistoryAgrees(w.handled, Fleet.Run(w.fleetSteps).history)
      && client in w.accounts && Within(done, |w.handled|)
      && var first := Abstract(w.accounts[client].first);
         && (NothingOutstanding(w, client) ==> StoredDevice(w, client) == Some(Folded(first, CmdsAt(w.handled, done))))
         && (!NothingOutstanding(w, client) ==>
               done != [] && StoredDevice(w, client) == Some(Folded(first, CmdsAt(w.handled, done)[..|done| - 1])))
  {
    RunsAreTraced(responseTtl, steps);
    StoredStateIsTheFold(responseTtl, steps, client);
    var w := WorldAfter(responseTtl, steps);
    LogFoldsToSuccesses(w, client, Abstract(w.accounts[client].first));
    if !NothingOutstanding(w, client) {
      var n :| 0 <= n < |w.bff.service.saves| && Outstanding(w, client, n);
    }
  }

  /** Every command in a client's log is that of a distinct successful event of the workers' history, in their
      order, and no two are of one request. */
  lemma CreditsAreSuccesses(responseTtl: nat, steps: seq<WorldStep>, client: string)
    requires client in WorldAfter(responseTtl, steps).accounts
    ensures var w := WorldAfter(responseTtl, steps);
            var a, history := w.accounts[client], Fleet.Run(w.fleetSteps).history;
      && |a.events| == |a.log| && Increasing(a.events) && Within(a.events, |history|) && |history| == |w.handled|
      && (forall i :: 0 <= i < |a.log| && a.log[i] != NoChange ==>
            && history[a.events[i]].Handled? && history[a.events[i]].success
            && history[a.events[i]].op.Some? && CmdFits(history[a.events[i]].op.value, a.log[i])
            && AsksFor(w.bff.registrations, history[a.events[i]].requestId, client))
      && (forall i, j :: 0 <= i < j < |a.log| ==>
            w.handled[a.events[i]].requestId != w.handled[a.events[j]].requestId)
  {
    RunsAreTraced(responseTtl, steps);
    var w := WorldAfter(responseTtl, steps);
    var a, history := w.accounts[client], Fleet.Run(w.fleetSteps).history;
    assert LogAgrees(w, client, a);
    forall i | 0 <= i < |a.log|
      ensures FirstFor(w, client, a.events[i]) && EventAgrees(w.handled[a.events[i]], history[a.events[i]])
    {
      assert a.events[i] in a.events;
    }
  }

  predicate AnswerArrived(w: World, id: string) {
    exists n :: 0 <= n < |w.arrivals| && IsHandlingOf(w.handled, w.arrivals[n], id)
  }

  /** Once a request is answered, what a worker made of it is missing from its client's log exactly when the
      answer to another handling of the same request was the first to arrive. */
  lemma MissingExactly(responseTtl: nat, steps: seq<WorldStep>, client: string, k: nat)
    requires var w := WorldAfter(responseTtl, steps);
      && k < |w.handled| && client in w.accounts
      && AsksFor(w.bff.registrations, w.handled[k].requestId, client) && AnswerArrived(w, w.handled[k].requestId)
    ensures var w := WorldAfter(responseTtl, steps);
            var id := w.handled[k].requestId;
      k !in w.accounts[client].events <==>
        exists n :: 0 <= n < |w.arrivals| && w.arrivals[n] != k && IsHandlingOf(w.handled, w.arrivals[n], id)
                    && forall m :: 0 <= m < n ==> !IsHandlingOf(w.handled, w.arrivals[m], id)
  {
    RunsAreTraced(responseTtl, steps);
    var w := WorldAfter(responseTtl, steps);
    assert LogAgrees(w, client, w.accounts[client]);
    FirstAnswerIs(w.handled, w.arrivals, w.handled[k].requestId);
  }

  /** The event committed a transition or issued a state. */
  predicate LeavesTrace(e: Fleet.Event) {
    e.Handled? && (e.commit.Some? || e.issued.Some?)
  }

  /** A request whose first answer is an outer or inner error left no trace exactly when no other handling of it
      did; a request that is handled once never does. */
  lemma ErrorAnsweredRequest(responseTtl: nat, steps: seq<WorldStep>, id: string, k: nat)
    requires var w := WorldAfter(responseTtl, steps);
      && FirstAnswer(w.handled, w.arrivals, id) == Some(k)
      && k < |w.handled| && w.handled[k].reply.Some? && ClientSeesError(w.handled[k].reply.value)
    ensures var w := WorldAfter(responseTtl, steps);
            var history := Fleet.Run(w.fleetSteps).history;
      && |history| == |w.handled|
      && ((forall j: nat :: IsHandlingOf(w.handled, j, id) ==> Traceless(w.handled[j])) <==>
          (forall j: nat :: IsHandlingOf(w.handled, j, id) && j != k ==> !LeavesTrace(history[j])))
      && (HandledOnce(w) ==> forall j: nat :: IsHandlingOf(w.handled, j, id) ==> Traceless(w.handled[j]))
  {
    RunsAreTraced(responseTtl, steps);
    var w := WorldAfter(responseTtl, steps);
    var history := Fleet.Run(w.fleetSteps).history;
    FirstAnswerIs(w.handled, w.arrivals, id);
    forall j: nat | IsHandlingOf(w.handled, j, id) ensures Traceless(w.handled[j]) <==> !LeavesTrace(history[j]) {
      assert EventAgrees(w.handled[j], history[j]);
    }
    assert EventAgrees(w.handled[k], history[k]);
    forall j: nat | HandledOnce(w) && IsHandlingOf(w.handled, j, id) ensures j == k {
      assert IsHandlingOf(w.handled, k, id);
    }
  }

  /** No request is handled twice. */
  predicate HandledOnce(w: World) {
    forall j, k :: 0 <= j < k < |w.handled| ==> w.handled[j].requestId != w.handled[k].requestId
  }

  /** The handlings that succeeded and whose answer arrived at all, in the order of the workers' history. */
  function AnsweredSuccesses(w: World, client: string): seq<nat> {
    Ascending(set k | k in Successes(w) && k in w.arrivals
                      && AsksFor(w.bff.registrations, w.handled[k].requestId, client),
              |w.handled|)
  }

  /** So where no request is handled twice, the stored token is the fold of all the client's successful and
      answered operations. */
  lemma StoredStateIsAllAnswered(responseTtl: nat, steps: seq<WorldStep>, client: string)
    requires client in WorldAfter(responseTtl, steps).store && HandledOnce(WorldAfter(responseTtl, steps))
    requires NothingOutstanding(WorldAfter(responseTtl, steps), client)
    ensures var w := WorldAfter(responseTtl, steps);
            var done := AnsweredSuccesses(w, client);
      && client in w.accounts && Within(done, |w.handled|)
      && StoredDevice(w, client) == Some(Folded(Abstract(w.accounts[client].first), CmdsAt(w.handled, done)))
  {
    StoredStateIsTheHistory(responseTtl, steps, client);
    var w := WorldAfter(responseTtl, steps);
    forall k | 0 <= k < |w.handled|
      ensures FirstFor(w, client, k) <==>
                k in w.arrivals && AsksFor(w.bff.registrations, w.handled[k].requestId, client)
    {
      FirstAnswerIs(w.handled, w.arrivals, w.handled[k].requestId);
    }
    assert (set k | k in Successes(w) && FirstFor(w, client, k)) ==
           (set k | k in Successes(w) && k in w.arrivals
            && AsksFor(w.bff.registrations, w.handled[k].requestId, client));
  }

  /** A reply to a request that is no longer pending is parked: nothing is saved, nothing credited, and a poll
      can still find it. */
  lemma SecondAnswerIsParked(w: World, k: nat, at: nat)
    requires Sound(w) && Possible(w, Accept(k)) && w.handled[k].requestId !in w.bff.service.pending
    ensures var w1, reply, n := Advanced(w, Accept(k)), w.handled[k].reply.value, |w.bff.calls|;
      && w1.store == w.store && w1.accounts == w.accounts && w1.bff.service.saves == w.bff.service.saves
      && Enabled(w1.bff, Finish(n, at))
      && var w2 := Advanced(w1, Waiters(Finish(n, at)));
         && w2.store == w.store && w2.accounts == w.accounts && w2.bff.service.saves == w.bff.service.saves
         && w2.bff.calls[n].phase.InCache?
         && (w.bff.responseTtl > 0 ==> Seen(w2.bff.service.cache, reply.requestId, at) == Some(reply))
  {
    assert w.handled[k] in w.handled && ReplyAgrees(w.requests, w.handled[k]);
  }
}
