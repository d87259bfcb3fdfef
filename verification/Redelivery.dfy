/** Redelivery alone can lose a success: every library call works, and the handler's own guard refuses the second
    handling of a request whose first one used the session. */
module Redelivery {
  import opened Protocol
  import opened Sessions
  import opened Worker
  import opened StateChains
  import opened Responses
  import opened Delivery
  import opened EndToEnd
  import opened Provenance

  /** A second handling right after the first, with every library call working. */
  predicate Repeats(r: Replies, r': Replies) {
    && r.applyAt <= r'.readAt < r.applyAt + SESSION_TTL && r.ttlAt <= r'.readAt <= r'.applyAt <= r'.ttlAt
    && r'.verifyState && r'.verifyDevice && r'.decrypt && r'.encryptError && r'.signError && r'.send
  }

  /** A request for an HSM operation, pending at the BFF, that a worker can handle with success. */
  predicate AboutToSucceed(w: World, worker: Fleet.WorkerId, cfg: WorkerConfig, id: string, r: Replies) {
    && Possible(w, Work(worker, cfg, id, r)) && id in w.bff.service.pending
    && var p := Process(cfg, CacheOf(w, worker), w.requests[id], r);
       p.result.Ok? && p.input.Some? && p.input.value.innerRequest.requestType.HsmMutating() && r.send
  }

  /** A handled HSM operation creates no session. */
  lemma NoSessionCreated(cfg: WorkerConfig, cache: CacheMap, request: HsmWorkerRequest, r: Replies,
                         worker: Fleet.WorkerId, history: seq<Fleet.Event>, unused: SessionId)
    requires var p := Process(cfg, cache, request, r);
      p.result.Ok? && p.input.Some? && p.input.value.innerRequest.requestType.HsmMutating()
    requires Fleet.LifeOf(history, unused).Unborn?
    ensures Fleet.LifeOf(history + [Fleet.EventOf(worker, r, Process(cfg, cache, request, r))], unused).Unborn?
  {
    Fleet.EventFacts(cfg, worker, cache, request, r);
    Fleet.LifeGrows(history, Fleet.EventOf(worker, r, Process(cfg, cache, request, r)), unused);
  }

  lemma WorkedFleet(w: World, worker: Fleet.WorkerId, cfg: WorkerConfig, id: string, r: Replies, unused: SessionId)
    requires AboutToSucceed(w, worker, cfg, id, r)
    requires Fleet.LifeOf(Fleet.Run(w.fleetSteps).history, unused).Unborn?
    ensures var f := Fleet.Run(Advanced(w, Work(worker, cfg, id, r)).fleetSteps);
            var p := Process(cfg, CacheOf(w, worker), w.requests[id], r);
      && Fleet.WorkerOf(f, worker) == Fleet.WorkerState(p.cache, r.ttlAt)
      && Fleet.LifeOf(f.history, unused).Unborn?
  {
    var request, cache, history := w.requests[id], CacheOf(w, worker), Fleet.Run(w.fleetSteps).history;
    RunGrows(w.fleetSteps, Fleet.Handle(worker, cfg, request, r));
    NoSessionCreated(cfg, cache, request, r, worker, history, unused);
  }

  predicate IsSuccessOf(h: Handling, id: string) {
    h.requestId == id && h.reply.Some? && h.reply.value.requestId == id && h.success && h.changed
  }

  predicate IsRefusalOf(h: Handling, id: string) {
    && h.requestId == id && h.reply.Some? && h.reply.value.requestId == id && !h.success && h.cmd == NoChange
    && ClientSeesError(h.reply.value) && h.reply.value.stateJws.None?
  }

  /** The request was handled with success, and again with a refusal. */
  predicate SuccessThenRefusal(w: World, n: nat, id: string) {
    |w.handled| == n + 2 && IsSuccessOf(w.handled[n], id) && IsRefusalOf(w.handled[n + 1], id)
  }

  lemma FirstHandling(cache: CacheMap, cfg: WorkerConfig, request: HsmWorkerRequest, r: Replies)
    requires var p := Process(cfg, cache, request, r);
      && p.result.Ok? && p.input.Some? && p.input.value.innerRequest.requestType.HsmMutating() && r.send
    ensures IsSuccessOf(HandlingOf(cache, cfg, request, r), request.requestId)
  {
    OperationIsUsed(cfg, cache, request, r, r.applyAt);
    CommitChangesCache(cfg, cache, request, r);
    FailureAtomicity(cfg, cache, request, r);
  }

  lemma SecondHandling(cache: CacheMap, cfg: WorkerConfig, request: HsmWorkerRequest, r: Replies, r': Replies)
    requires var p := Process(cfg, cache, request, r);
      p.result.Ok? && p.input.Some? && p.input.value.innerRequest.requestType.HsmMutating()
    requires Repeats(r, r')
    ensures IsRefusalOf(HandlingOf(Process(cfg, cache, request, r).cache, cfg, request, r'), request.requestId)
  {
    var p := Process(cfg, cache, request, r);
    SecondHandlingRefused(cfg, cache, request, r, r');
    FailureAtomicity(cfg, p.cache, request, r');
  }

  /** After the first handling the worker may take the request again, and finds its own cache. */
  lemma MayRepeat(w: World, worker: Fleet.WorkerId, cfg: WorkerConfig, id: string, r: Replies, r': Replies)
    requires AboutToSucceed(w, worker, cfg, id, r) && Repeats(r, r')
    requires Fleet.LifeOf(Fleet.Run(w.fleetSteps).history, r'.ports.freshId).Unborn?
    ensures var w1 := Advanced(w, Work(worker, cfg, id, r));
      && Possible(w1, Work(worker, cfg, id, r'))
      && CacheOf(w1, worker) == Process(cfg, CacheOf(w, worker), w.requests[id], r).cache
  {
    WorkedFleet(w, worker, cfg, id, r, r'.ports.freshId);
  }

  lemma WorkIs(w: World, worker: Fleet.WorkerId, cfg: WorkerConfig, id: string, r: Replies)
    requires Possible(w, Work(worker, cfg, id, r))
    ensures var w' := Advanced(w, Work(worker, cfg, id, r));
      && w' == w.(fleetSteps := w'.fleetSteps, handled := w'.handled)
      && w'.handled == w.handled + [HandlingOf(CacheOf(w, worker), cfg, w.requests[id], r)]
  {
  }

  /** Two steps: the worker handles the request, and handles it again. */
  lemma HandleTwice(w: World, worker: Fleet.WorkerId, cfg: WorkerConfig, id: string, r: Replies, r': Replies)
    requires AboutToSucceed(w, worker, cfg, id, r) && Repeats(r, r') && w.requests[id].requestId == id
    requires Fleet.LifeOf(Fleet.Run(w.fleetSteps).history, r'.ports.freshId).Unborn?
    ensures var w1 := Advanced(w, Work(worker, cfg, id, r));
      && Possible(w1, Work(worker, cfg, id, r'))
      && var w2 := Advanced(w1, Work(worker, cfg, id, r'));
         && SuccessThenRefusal(w2, |w.handled|, id)
         && w2.handled[|w.handled|] == HandlingOf(CacheOf(w, worker), cfg, w.requests[id], r)
         && w2 == w.(fleetSteps := w2.fleetSteps, handled := w2.handled)
  {
    var w1 := Advanced(w, Work(worker, cfg, id, r));
    MayRepeat(w, worker, cfg, id, r, r');
    WorkIs(w, worker, cfg, id, r);
    WorkIs(w1, worker, cfg, id, r');
    BothHandlings(w, w1, Advanced(w1, Work(worker, cfg, id, r')), worker, cfg, id, r, r');
  }

  lemma BothHandlings(w: World, w1: World, w2: World, worker: Fleet.WorkerId, cfg: WorkerConfig, id: string,
                      r: Replies, r': Replies)
    requires AboutToSucceed(w, worker, cfg, id, r) && Repeats(r, r') && w.requests[id].requestId == id
    requires w1.handled == w.handled + [HandlingOf(CacheOf(w, worker), cfg, w.requests[id], r)]
    requires w2.handled == w1.handled + [HandlingOf(CacheOf(w1, worker), cfg, w.requests[id], r')]
    requires CacheOf(w1, worker) == Process(cfg, CacheOf(w, worker), w.requests[id], r).cache
    ensures SuccessThenRefusal(w2, |w.handled|, id)
    ensures w2.handled[|w.handled|] == HandlingOf(CacheOf(w, worker), cfg, w.requests[id], r)
  {
    var cache, request := CacheOf(w, worker), w.requests[id];
    FirstHandling(cache, cfg, request, r);
    SecondHandling(cache, cfg, request, r, r');
    TwoMore(w.handled, w2, HandlingOf(cache, cfg, request, r), HandlingOf(CacheOf(w1, worker), cfg, request, r'), id);
  }

  lemma TwoMore(before: seq<Handling>, w: World, h: Handling, h': Handling, id: string)
    requires w.handled == before + [h] + [h'] && IsSuccessOf(h, id) && IsRefusalOf(h', id)
    ensures SuccessThenRefusal(w, |before|, id) && w.handled[|before|] == h
  {
  }

  /** The refusal arrives first and is taken up. */
  lemma RefusalTakenUp(w: World, n: nat, id: string)
    requires Sound(w) && SuccessThenRefusal(w, n, id) && id in w.bff.service.pending
    ensures var client, w' := w.bff.service.pending[id].stateKey, Advanced(w, Accept(n + 1));
      && id !in w'.bff.service.pending && w'.handled == w.handled && w'.bff.responseTtl == w.bff.responseTtl
      && w'.store == w.store && w'.bff.service.saves == w.bff.service.saves
      && client in w.accounts && client in w'.accounts
      && w'.accounts[client].log == w.accounts[client].log + [NoChange]
      && w'.accounts[client].events == w.accounts[client].events + [n + 1]
  {
    assert w.handled[n + 1] in w.handled;
    CreditAccounts(w, n + 1);
    AcceptIs(w, n + 1);
  }

  /** The success arrives after it and is parked. */
  lemma SuccessParked(responseTtl: nat, steps: seq<WorldStep>, n: nat, id: string, at: nat)
    returns (steps': seq<WorldStep>)
    requires var w := WorldAfter(responseTtl, steps);
      SuccessThenRefusal(w, n, id) && id !in w.bff.service.pending && w.bff.responseTtl > 0
    ensures var w, w' := WorldAfter(responseTtl, steps), WorldAfter(responseTtl, steps');
      && w'.handled == w.handled && w'.store == w.store && w'.accounts == w.accounts
      && w'.bff.service.saves == w.bff.service.saves
      && Seen(w'.bff.service.cache, id, at) == w.handled[n].reply
  {
    var w, finish := WorldAfter(responseTtl, steps), Waiters(Finish(|WorldAfter(responseTtl, steps).bff.calls|, at));
    RunsAreSound(responseTtl, steps);
    SecondAnswerIsParked(w, n, at);
    WorldGrows(responseTtl, steps, Accept(n));
    WorldGrows(responseTtl, steps + [Accept(n)], finish);
    steps' := steps + [Accept(n)] + [finish];
  }

  /** In any run, a pending HSM operation that is about to succeed can be lost to redelivery alone: it is handled
      twice, the refusal arrives first and is taken up, and the success, which used the session's one operation, is
      parked. The stored token and the saves stay what they were. */
  lemma RedeliveryLosesTheSuccess(responseTtl: nat, steps: seq<WorldStep>, worker: Fleet.WorkerId, cfg: WorkerConfig,
                                  id: string, r: Replies, r': Replies, at: nat) returns (steps': seq<WorldStep>)
    requires responseTtl > 0 && AboutToSucceed(WorldAfter(responseTtl, steps), worker, cfg, id, r) && Repeats(r, r')
    requires Fleet.LifeOf(Fleet.Run(WorldAfter(responseTtl, steps).fleetSteps).history, r'.ports.freshId).Unborn?
    ensures var w, w' := WorldAfter(responseTtl, steps), WorldAfter(responseTtl, steps');
            var client, n := w.bff.service.pending[id].stateKey, |w.handled|;
      && SuccessThenRefusal(w', n, id)
      && w'.handled[n] == HandlingOf(CacheOf(w, worker), cfg, w.requests[id], r)
      && w'.store == w.store && w'.bff.service.saves == w.bff.service.saves
      && client in w.accounts && client in w'.accounts
      && w'.accounts[client].log == w.accounts[client].log + [NoChange]
      && w'.accounts[client].events == w.accounts[client].events + [n + 1]
      && Seen(w'.bff.service.cache, id, at) == w'.handled[n].reply
  {
    var w, n := WorldAfter(responseTtl, steps), |WorldAfter(responseTtl, steps).handled|;
    var first, second := Work(worker, cfg, id, r), Work(worker, cfg, id, r');
    RunsAreSound(responseTtl, steps);
    HandleTwice(w, worker, cfg, id, r, r');
    WorldGrows(responseTtl, steps, first);
    WorldGrows(responseTtl, steps + [first], second);
    var both := steps + [first] + [second];
    RunsAreSound(responseTtl, both);
    RefusalTakenUp(WorldAfter(responseTtl, both), n, id);
    WorldGrows(responseTtl, both, Accept(n + 1));
    TtlStays(responseTtl, steps);
    steps' := SuccessParked(responseTtl, both + [Accept(n + 1)], n, id, at);
  }

  lemma StepKeepsTtl(w: World, step: WorldStep)
    requires Possible(w, step)
    ensures Advanced(w, step).bff.responseTtl == w.bff.responseTtl
  {
  }

  lemma {:induction false} TtlStays(responseTtl: nat, steps: seq<WorldStep>)
    ensures WorldAfter(responseTtl, steps).bff.responseTtl == responseTtl
  {
    if steps != [] {
      var before, last := WorldAfter(responseTtl, steps[..|steps| - 1]), steps[|steps| - 1];
      TtlStays(responseTtl, steps[..|steps| - 1]);
      if Possible(before, last) {
        StepKeepsTtl(before, last);
      }
    }
  }
}
