/** Client, BFF, message bag, workers and state store together: the stored state token is the fold of the
    operations whose answers the BFF took up. */
module EndToEnd {
  import opened Wrappers
  import opened Protocol
  import opened DeviceState
  import opened Operations
  import opened Worker
  import opened StateInitService
  import opened StateChains
  import opened Channels
  import opened Responses
  import opened Delivery
  import Fleet
  import SessionTheorems

  /** What a worker made of a request: the reply it sent, if any, the command its success stands for, and
      whether it changed the worker's session cache. */
  datatype Handling = Handling(
    requestId: string,
    reply: Option<HsmWorkerResponse>,
    success: bool,
    cmd: DeviceCmd,
    changed: bool)

  /** A client's history: its first state, the commands of the answers taken up so far with the handlings they
      come from, and the state they amount to. */
  datatype Account = Account(first: StateRecord, log: seq<DeviceCmd>, events: seq<nat>, expected: StateRecord)

  /** `requests` and `handled` never shrink: a request may be handled again, and a reply delivered again, late or
      never. `arrivals` are the handlings whose replies reached the BFF, in order. */
  datatype World = World(
    fleetSteps: seq<Fleet.Step>,
    bff: Bff,
    requests: map<string, HsmWorkerRequest>,
    handled: seq<Handling>,
    arrivals: seq<nat>,
    executed: set<nat>,
    store: map<string, Jws<StateRecord>>,
    accounts: map<string, Account>)

  datatype WorldStep =
    | Enrol(client: string, init: StateInitRequest, initReplies: InitReplies)
    | Send(client: string, requestId: string, outerJws: Jws<OuterRequest>, topic: string)
    | Work(worker: Fleet.WorkerId, cfg: WorkerConfig, requestId: string, replies: Replies)
    | Accept(handling: nat)
    | RunSave(save: nat)
    | ForgetState(client: string)
    | Waiters(bffStep: BffStep)
    | WorkerLoss(fleetStep: Fleet.Step)

  const DEFAULT_TTL_SECONDS: nat := 600

  // === Discipline ===

  predicate NothingPending(w: World, client: string) {
    forall id :: id in w.bff.service.pending ==> w.bff.service.pending[id].stateKey != client
  }

  predicate Outstanding(w: World, client: string, k: nat) {
    k < |w.bff.service.saves| && k !in w.executed && w.bff.service.saves[k].stateKey == client
  }

  predicate NothingOutstanding(w: World, client: string) {
    forall k :: 0 <= k < |w.bff.service.saves| ==> !Outstanding(w, client, k)
  }

  /** A client sends only once its previous request is answered and saved; its request carries the stored
      token. Ids are fresh. Workers take any request out of the bag, as often as they like. */
  predicate Possible(w: World, step: WorldStep) {
    match step
    case Enrol(client, request, r) => client !in w.accounts && Initialized(request, r).Ok?
                                      && GeneratedFor(request, r).value.Kid() != ""
    case Send(client, id, _, _) =>
      && client in w.accounts && client in w.store
      && NothingPending(w, client) && NothingOutstanding(w, client)
      && Fresh(w.bff, id) && id !in w.requests
    case Work(worker, cfg, id, r) =>
      id in w.requests && Fleet.Allowed(Fleet.Run(w.fleetSteps), Fleet.Handle(worker, cfg, w.requests[id], r))
    case Accept(k) => k < |w.handled| && w.handled[k].reply.Some?
    case RunSave(k) => k < |w.bff.service.saves| && k !in w.executed
    case ForgetState(_) => true
    case Waiters(s) => (s.Finish? || s.GiveUp? || s.Receive? || s.Look?) && Enabled(w.bff, s)
    case WorkerLoss(s) => s.Evict? || s.Restart?
  }

  // === Steps ===

  function HandlingOf(cache: Sessions.CacheMap, cfg: WorkerConfig, request: HsmWorkerRequest, r: Replies): Handling {
    var p := Process(cfg, cache, request, r);
    Handling(request.requestId, SentFor(cfg, request, p, r), p.result.Ok?,
             if p.result.Ok? && p.input.Some? then CmdOf(p.input.value, r.ports) else NoChange,
             p.cache != cache)
  }

  function CacheOf(w: World, worker: Fleet.WorkerId): Sessions.CacheMap {
    Fleet.WorkerOf(Fleet.Run(w.fleetSteps), worker).cache
  }

  /** An answer taken up extends its client's log; a new state replaces the expected one. */
  function Credited(accounts: map<string, Account>, client: string, k: nat, item: Handling): map<string, Account> {
    if client !in accounts then accounts
    else
      var a := accounts[client];
      var expected := match item.reply
                      case Some(HsmWorkerResponse(_, Some(Jws(_, _, Some(s))), _, _, _)) => s
                      case _ => a.expected;
      accounts[client := a.(log := a.log + [item.cmd], events := a.events + [k], expected := expected)]
  }

  function Advanced(w: World, step: WorldStep): World
    requires Possible(w, step)
  {
    match step
    case Enrol(client, request, r) =>
      var token := Initialized(request, r).value.stateJws;
      w.(store := w.store[client := token],
         accounts := w.accounts[client := Account(token.payload.value, [], [], token.payload.value)])
    case Send(client, id, outerJws, topic) =>
      w.(bff := Moved(w.bff, Register(id, client, DEFAULT_TTL_SECONDS)),
         requests := w.requests[id := HsmWorkerRequest(id, w.store[client], outerJws, topic)])
    case Work(worker, cfg, id, r) =>
      w.(fleetSteps := w.fleetSteps + [Fleet.Handle(worker, cfg, w.requests[id], r)],
         handled := w.handled + [HandlingOf(CacheOf(w, worker), cfg, w.requests[id], r)])
    case Accept(k) =>
      var item := w.handled[k];
      var id := item.reply.value.requestId;
      w.(bff := Moved(w.bff, Arrive(item.reply.value)),
         arrivals := w.arrivals + [k],
         accounts := if id in w.bff.service.pending
                     then Credited(w.accounts, w.bff.service.pending[id].stateKey, k, item) else w.accounts)
    case RunSave(k) =>
      var save := w.bff.service.saves[k];
      w.(store := w.store[save.stateKey := save.stateJws], executed := w.executed + {k})
    case ForgetState(client) => w.(store := w.store - {client})
    case Waiters(s) => w.(bff := Moved(w.bff, s))
    case WorkerLoss(s) => w.(fleetSteps := w.fleetSteps + [s])
  }

  function Begin(responseTtl: nat): World {
    World([], RunOf(responseTtl, []), map[], [], [], {}, map[], map[])
  }

  /** The world after a run; a step that is not possible changes nothing. */
  function WorldAfter(responseTtl: nat, steps: seq<WorldStep>): World {
    if steps == [] then Begin(responseTtl)
    else
      var before, last := WorldAfter(responseTtl, steps[..|steps| - 1]), steps[|steps| - 1];
      if Possible(before, last) then Advanced(before, last) else before
  }

  lemma WorldGrows(responseTtl: nat, steps: seq<WorldStep>, step: WorldStep)
    requires Possible(WorldAfter(responseTtl, steps), step)
    ensures WorldAfter(responseTtl, steps + [step]) == Advanced(WorldAfter(responseTtl, steps), step)
  {
    assert (steps + [step])[..|steps|] == steps;
  }

  // === The invariant ===

  predicate TokenFor(token: Jws<StateRecord>, s: StateRecord) {
    token.payload == Some(s)
  }

  predicate AccountAgrees(a: Account) {
    && Wellformed(a.expected)
    && Abstract(a.expected) == Folded(Abstract(a.first), a.log)
  }

  /** A reply answers its request; a state in it is what its command makes of the request's state, and without
      one the command changes nothing. */
  predicate ReplyAgrees(requests: map<string, HsmWorkerRequest>, item: Handling) {
    && item.requestId in requests
    && match item.reply
       case None => true
       case Some(reply) =>
         && reply.requestId == item.requestId
         && match reply.stateJws
            case None => item.cmd == NoChange
            case Some(token) =>
              && item.success && token.payload.Some?
              && var request := requests[item.requestId];
                 && request.stateJws.payload.Some?
                 && Advances(request.stateJws.payload.value, item.cmd, token.payload.value)
  }

  predicate Advances(s: StateRecord, cmd: DeviceCmd, s': StateRecord) {
    Wellformed(s) ==> Wellformed(s') && Abstract(s') == Applied(Abstract(s), cmd)
  }

  /** A pending request carries its client's expected state, and its client has nothing else under way. */
  predicate PendingFits(w: World, id: string)
    requires id in w.bff.service.pending
  {
    var client := w.bff.service.pending[id].stateKey;
    && client in w.accounts
    && id in w.requests
    && TokenFor(w.requests[id].stateJws, w.accounts[client].expected)
    && NothingOutstanding(w, client)
    && forall other :: other in w.bff.service.pending && w.bff.service.pending[other].stateKey == client ==> other == id
  }

  /** An outstanding save brings the expected state; the store still has the one before the last answer. */
  ghost predicate OutstandingFits(w: World, client: string, k: nat)
    requires Outstanding(w, client, k)
  {
    && client in w.accounts
    && TokenFor(w.bff.service.saves[k].stateJws, w.accounts[client].expected)
    && |w.accounts[client].log| > 0
    && (client in w.store ==>
          && w.store[client].payload.Some?
          && Abstract(w.store[client].payload.value) ==
             Folded(Abstract(w.accounts[client].first), w.accounts[client].log[..|w.accounts[client].log| - 1]))
    && forall j :: Outstanding(w, client, j) ==> j == k
  }

  predicate StoreFits(w: World, client: string)
    requires client in w.store
  {
    && client in w.accounts
    && (NothingOutstanding(w, client) ==> TokenFor(w.store[client], w.accounts[client].expected))
  }

  predicate AccountsFit(w: World) {
    forall client :: client in w.accounts ==> AccountAgrees(w.accounts[client])
  }

  predicate RepliesFit(w: World) {
    && (forall item :: item in w.handled ==> ReplyAgrees(w.requests, item))
    && (forall id :: id in w.requests ==> w.requests[id].requestId == id)
  }

  predicate RequestsFit(w: World) {
    forall id :: id in w.bff.service.pending ==> PendingFits(w, id)
  }

  ghost predicate SavesFit(w: World) {
    && (forall client, k :: Outstanding(w, client, k) ==> OutstandingFits(w, client, k))
    && (forall k :: k in w.executed ==> k < |w.bff.service.saves|)
  }

  predicate StoresFit(w: World) {
    forall client :: client in w.store ==> StoreFits(w, client)
  }

  ghost predicate Fits(w: World) {
    AccountsFit(w) && RepliesFit(w) && RequestsFit(w) && SavesFit(w) && StoresFit(w)
  }

  ghost predicate Sound(w: World) {
    Consistent(w.bff) && Fits(w)
  }

  // === Each step keeps it ===

  lemma FoldSnoc(d: DeviceView, log: seq<DeviceCmd>, cmd: DeviceCmd)
    ensures Folded(d, log + [cmd]) == Applied(Folded(d, log), cmd)
    ensures (log + [cmd])[..|log + [cmd]| - 1] == log
  {
  }

  lemma SameOutstanding(w: World, w': World)
    requires w'.bff.service.saves == w.bff.service.saves && w'.executed == w.executed
    ensures forall c, k :: Outstanding(w', c, k) <==> Outstanding(w, c, k)
    ensures forall c :: NothingOutstanding(w', c) <==> NothingOutstanding(w, c)
  {
  }

  /** What enrolling a client changes. */
  predicate EnrolledOnly(w: World, w': World, client: string) {
    && client !in w.accounts
    && w'.bff == w.bff && w'.requests == w.requests && w'.handled == w.handled && w'.executed == w.executed
    && client in w'.accounts && w'.accounts == w.accounts[client := w'.accounts[client]]
    && AccountAgrees(w'.accounts[client])
    && client in w'.store && w'.store == w.store[client := w'.store[client]]
    && TokenFor(w'.store[client], w'.accounts[client].expected)
  }

  lemma EnrolledPending(w: World, w': World, client: string)
    requires RequestsFit(w) && EnrolledOnly(w, w', client)
    ensures RequestsFit(w')
  {
    SameOutstanding(w, w');
    forall id | id in w'.bff.service.pending ensures PendingFits(w', id) {
      assert PendingFits(w, id);
    }
  }

  lemma EnrolledSaves(w: World, w': World, client: string)
    requires SavesFit(w) && StoresFit(w) && EnrolledOnly(w, w', client)
    ensures SavesFit(w') && StoresFit(w')
  {
    SameOutstanding(w, w');
    forall c, k | Outstanding(w', c, k) ensures OutstandingFits(w', c, k) {
      assert OutstandingFits(w, c, k);
    }
    forall c | c in w'.store ensures StoreFits(w', c) {
      assert c != client ==> StoreFits(w, c);
    }
  }

  lemma EnrolIs(w: World, client: string, request: StateInitRequest, r: InitReplies)
    requires Possible(w, Enrol(client, request, r))
    ensures EnrolledOnly(w, Advanced(w, Enrol(client, request, r)), client)
  {
    InitialStateShape(request, r);
  }

  lemma EnrolKeeps(w: World, client: string, request: StateInitRequest, r: InitReplies)
    requires Sound(w) && Possible(w, Enrol(client, request, r))
    ensures Sound(Advanced(w, Enrol(client, request, r)))
  {
    EnrolIs(w, client, request, r);
    EnrolledKeeps(w, Advanced(w, Enrol(client, request, r)), client);
  }

  lemma EnrolledKeeps(w: World, w': World, client: string)
    requires Fits(w) && EnrolledOnly(w, w', client)
    ensures Fits(w')
  {
    EnrolledPending(w, w', client);
    EnrolledSaves(w, w', client);
  }

  /** A client whose saves, account and stored token a step leaves alone. */
  predicate Untouched(w: World, w': World, c: string) {
    && (c in w'.accounts <==> c in w.accounts) && (c in w.accounts ==> w'.accounts[c] == w.accounts[c])
    && (c in w'.store <==> c in w.store) && (c in w.store ==> w'.store[c] == w.store[c])
    && w.bff.service.saves <= w'.bff.service.saves
  }

  lemma OutstandingFrame(w: World, w': World, c: string, k: nat)
    requires Outstanding(w, c, k) && OutstandingFits(w, c, k) && Untouched(w, w', c)
    requires forall j :: Outstanding(w', c, j) <==> Outstanding(w, c, j)
    ensures Outstanding(w', c, k) && OutstandingFits(w', c, k)
  {
  }

  lemma StoreFrame(w: World, w': World, c: string)
    requires c in w.store && StoreFits(w, c) && Untouched(w, w', c)
    requires forall j :: Outstanding(w', c, j) <==> Outstanding(w, c, j)
    ensures StoreFits(w', c)
  {
  }

  /** What sending changes. */
  predicate SentOnly(w: World, w': World, client: string, id: string) {
    && client in w.store && NothingPending(w, client) && NothingOutstanding(w, client) && id !in w.requests
    && w'.bff.service.saves == w.bff.service.saves
    && w'.bff.service.pending.Keys == w.bff.service.pending.Keys + {id}
    && (forall other :: other in w.bff.service.pending && other != id ==>
          w'.bff.service.pending[other] == w.bff.service.pending[other])
    && w'.bff.service.pending[id].stateKey == client
    && id in w'.requests && w'.requests[id].requestId == id && w'.requests[id].stateJws == w.store[client]
    && w'.requests == w.requests[id := w'.requests[id]]
    && w'.handled == w.handled && w'.executed == w.executed && w'.store == w.store && w'.accounts == w.accounts
  }

  lemma SendIs(w: World, client: string, id: string, outerJws: Jws<OuterRequest>, topic: string)
    requires Possible(w, Send(client, id, outerJws, topic))
    ensures SentOnly(w, Advanced(w, Send(client, id, outerJws, topic)), client, id)
  {
  }

  lemma SentPendingOther(w: World, w': World, client: string, id: string, other: string)
    requires SentOnly(w, w', client, id) && other != id
    requires other in w.bff.service.pending && PendingFits(w, other)
    ensures other in w'.bff.service.pending && PendingFits(w', other)
  {
    SameOutstanding(w, w');
    assert w.bff.service.pending[other].stateKey != client;
  }

  lemma SentPendingNew(w: World, w': World, client: string, id: string)
    requires SentOnly(w, w', client, id) && StoreFits(w, client)
    ensures id in w'.bff.service.pending && PendingFits(w', id)
  {
    SameOutstanding(w, w');
  }

  lemma SentPending(w: World, w': World, client: string, id: string)
    requires RequestsFit(w) && StoresFit(w) && SentOnly(w, w', client, id)
    ensures RequestsFit(w')
  {
    forall other | other in w'.bff.service.pending ensures PendingFits(w', other) {
      if other != id {
        SentPendingOther(w, w', client, id, other);
      } else {
        SentPendingNew(w, w', client, id);
      }
    }
  }

  lemma SentSaves(w: World, w': World, client: string, id: string)
    requires SavesFit(w) && SentOnly(w, w', client, id)
    ensures SavesFit(w')
  {
    SameOutstanding(w, w');
    forall c, k | Outstanding(w', c, k) ensures OutstandingFits(w', c, k) {
      OutstandingFrame(w, w', c, k);
    }
  }

  lemma SentStore(w: World, w': World, client: string, id: string)
    requires StoresFit(w) && SentOnly(w, w', client, id)
    ensures StoresFit(w')
  {
    SameOutstanding(w, w');
    forall c | c in w'.store ensures StoreFits(w', c) {
      StoreFrame(w, w', c);
    }
  }

  lemma SentKeeps(w: World, w': World, client: string, id: string)
    requires Fits(w) && SentOnly(w, w', client, id)
    ensures Fits(w')
  {
    SentPending(w, w', client, id);
    SentSaves(w, w', client, id);
    SentStore(w, w', client, id);
    SentReplies(w, w', client, id);
  }

  lemma SentReplies(w: World, w': World, client: string, id: string)
    requires RepliesFit(w) && SentOnly(w, w', client, id)
    ensures RepliesFit(w')
  {
  }

  lemma SendKeeps(w: World, client: string, id: string, outerJws: Jws<OuterRequest>, topic: string)
    requires Sound(w) && Possible(w, Send(client, id, outerJws, topic))
    ensures Sound(Advanced(w, Send(client, id, outerJws, topic)))
  {
    MoveKeeps(w.bff, Register(id, client, DEFAULT_TTL_SECONDS));
    SendIs(w, client, id, outerJws, topic);
    SentKeeps(w, Advanced(w, Send(client, id, outerJws, topic)), client, id);
  }

  /** Whatever a worker answers to a request fits the request's own state. */
  lemma ReplyFits(cache: Sessions.CacheMap, cfg: WorkerConfig, requests: map<string, HsmWorkerRequest>, id: string,
                  r: Replies)
    requires id in requests && requests[id].requestId == id
    ensures ReplyAgrees(requests, HandlingOf(cache, cfg, requests[id], r))
  {
    var request := requests[id];
    var p := Process(cfg, cache, request, r);
    FailureAtomicity(cfg, cache, request, r);
    ProcessShape(cfg, cache, request, r);
    if p.result.Ok? {
      var ctx := p.input.value;
      FinishedFacts(cfg, cache, ctx, ContextFor(ctx), Dispatched(ctx, r.ports), r);
      SuccessFits(ctx, r.ports);
    }
  }

  lemma SuccessFits(ctx: OperationContext, ports: PortReplies)
    requires Dispatched(ctx, ports).Ok?
    ensures match Dispatched(ctx, ports).value.state
            case None => CmdOf(ctx, ports) == NoChange
            case Some(s) => Advances(ctx.state, CmdOf(ctx, ports), s)
  {
    EffectOf(ctx, ports);
    if Wellformed(ctx.state) {
      OperationRefines(ctx, ports);
    }
  }

  lemma WorkKeeps(w: World, worker: Fleet.WorkerId, cfg: WorkerConfig, id: string, r: Replies)
    requires Sound(w) && Possible(w, Work(worker, cfg, id, r))
    ensures Sound(Advanced(w, Work(worker, cfg, id, r)))
  {
    var w' := Advanced(w, Work(worker, cfg, id, r));
    ReplyFits(CacheOf(w, worker), cfg, w.requests, id, r);
    SameButFleet(w, w');
  }

  /** Nothing the invariant relates has changed but what workers made of requests. */
  lemma SameButFleet(w: World, w': World)
    requires Fits(w)
    requires w'.bff.service.pending == w.bff.service.pending && w'.bff.service.saves == w.bff.service.saves
    requires w'.requests == w.requests && w'.executed == w.executed && w'.accounts == w.accounts
    requires forall c :: c in w'.store ==> c in w.store && w'.store[c] == w.store[c]
    requires forall item :: item in w'.handled ==> ReplyAgrees(w'.requests, item)
    ensures Fits(w')
  {
    SameOutstanding(w, w');
    forall id | id in w'.bff.service.pending ensures PendingFits(w', id) {
      assert PendingFits(w, id);
    }
    forall c, k | Outstanding(w', c, k) ensures OutstandingFits(w', c, k) {
      assert OutstandingFits(w, c, k);
    }
    forall c | c in w'.store ensures StoreFits(w', c) {
      assert StoreFits(w, c);
    }
  }

  lemma CreditedAgrees(w: World, k: nat)
    requires AccountsFit(w) && RepliesFit(w) && RequestsFit(w)
    requires Possible(w, Accept(k)) && w.handled[k].requestId in w.bff.service.pending
    ensures var item := w.handled[k];
            var client := w.bff.service.pending[item.requestId].stateKey;
      && client in w.accounts && item.reply.value.requestId == item.requestId
      && var a, a' := w.accounts[client], Credited(w.accounts, client, k, item)[client];
         && a'.first == a.first && a'.log == a.log + [item.cmd]
         && AccountAgrees(a')
         && (item.reply.value.stateJws.Some? ==> TokenFor(item.reply.value.stateJws.value, a'.expected))
         && (item.reply.value.stateJws.None? ==> a'.expected == a.expected)
  {
    var item := w.handled[k];
    assert item in w.handled;
    assert PendingFits(w, item.requestId) && ReplyAgrees(w.requests, item);
    var a := w.accounts[w.bff.service.pending[item.requestId].stateKey];
    assert AccountAgrees(a);
    FoldSnoc(Abstract(a.first), a.log, item.cmd);
  }

  /** After accepting, the client's only outstanding save is the one just spawned, if any. */
  lemma OutstandingAfterAccept(w: World, w': World, client: string, more: seq<Save>)
    requires NothingOutstanding(w, client) && w'.executed == w.executed
    requires forall k :: k in w.executed ==> k < |w.bff.service.saves|
    requires w'.bff.service.saves == w.bff.service.saves + more && |more| <= 1
    requires forall s :: s in more ==> s.stateKey == client
    ensures forall c, k :: c != client ==> (Outstanding(w', c, k) <==> Outstanding(w, c, k))
    ensures forall k :: Outstanding(w', client, k) <==> more != [] && k == |w.bff.service.saves|
  {
    var n := |w.bff.service.saves|;
    forall c, k: nat | c != client ensures Outstanding(w', c, k) <==> Outstanding(w, c, k) {
      if k == n && more != [] {
        assert w'.bff.service.saves[n] == more[0];
        assert more[0] in more;
      }
    }
    forall k: nat ensures Outstanding(w', client, k) <==> more != [] && k == n {
      if k < n {
        assert !Outstanding(w, client, k);
      } else if k == n && more != [] {
        assert w'.bff.service.saves[n] == more[0] && more[0] in more;
      }
    }
  }

  /** What accepting an answer to a pending request changes. */
  predicate AcceptedOnly(w: World, w': World, item: Handling, client: string, more: seq<Save>) {
    && item.requestId in w.bff.service.pending && client in w.accounts
    && w.bff.service.pending[item.requestId].stateKey == client
    && w'.bff.service.pending == w.bff.service.pending - {item.requestId}
    && w'.bff.service.saves == w.bff.service.saves + more && |more| <= 1
    && (more != [] ==> more[0].stateKey == client)
    && w'.requests == w.requests && w'.handled == w.handled && w'.executed == w.executed && w'.store == w.store
    && client in w'.accounts && w'.accounts == w.accounts[client := w'.accounts[client]]
    && AccountAgrees(w'.accounts[client])
    && w'.accounts[client].first == w.accounts[client].first
    && w'.accounts[client].log == w.accounts[client].log + [item.cmd]
    && (more != [] ==> TokenFor(more[0].stateJws, w'.accounts[client].expected))
    && (more == [] ==> w'.accounts[client].expected == w.accounts[client].expected)
  }

  /** The save that taking up an answer spawns, if any. */
  function SaveFor(entry: PendingEntry, item: Handling): seq<Save>
    requires item.reply.Some?
  {
    match item.reply.value.stateJws
    case Some(token) => [Save(item.requestId, entry.stateKey, token, entry.ttlSeconds)]
    case None => []
  }

  lemma AcceptIs(w: World, k: nat)
    requires Fits(w) && Possible(w, Accept(k)) && w.handled[k].requestId in w.bff.service.pending
    ensures var entry := w.bff.service.pending[w.handled[k].requestId];
            AcceptedOnly(w, Advanced(w, Accept(k)), w.handled[k], entry.stateKey, SaveFor(entry, w.handled[k]))
  {
    CreditedAgrees(w, k);
  }

  lemma AcceptKeeps(w: World, k: nat)
    requires Sound(w) && Possible(w, Accept(k))
    ensures Sound(Advanced(w, Accept(k)))
  {
    var w', item := Advanced(w, Accept(k)), w.handled[k];
    assert item in w.handled && ReplyAgrees(w.requests, item);
    MoveKeeps(w.bff, Arrive(item.reply.value));
    if item.requestId in w.bff.service.pending {
      var entry := w.bff.service.pending[item.requestId];
      AcceptIs(w, k);
      AcceptedKeeps(w, w', item, entry.stateKey, SaveFor(entry, item));
    } else {
      SameButFleet(w, w');
    }
  }

  lemma AcceptedPending(w: World, w': World, item: Handling, client: string, more: seq<Save>)
    requires RequestsFit(w) && SavesFit(w) && AcceptedOnly(w, w', item, client, more)
    ensures RequestsFit(w')
  {
    var id := item.requestId;
    assert PendingFits(w, id);
    OutstandingAfterAccept(w, w', client, more);
    forall other | other in w'.bff.service.pending ensures PendingFits(w', other) {
      assert PendingFits(w, other);
    }
  }

  lemma AcceptedOutstanding(w: World, w': World, item: Handling, client: string, more: seq<Save>)
    requires Fits(w) && AcceptedOnly(w, w', item, client, more) && more != []
    ensures Outstanding(w', client, |w.bff.service.saves|)
    ensures OutstandingFits(w', client, |w.bff.service.saves|)
  {
    assert PendingFits(w, item.requestId);
    OutstandingAfterAccept(w, w', client, more);
    FoldSnoc(Abstract(w.accounts[client].first), w.accounts[client].log, item.cmd);
    assert AccountAgrees(w.accounts[client]);
    if client in w.store {
      assert StoreFits(w, client);
    }
  }

  lemma AcceptedStore(w: World, w': World, item: Handling, client: string, more: seq<Save>)
    requires RequestsFit(w) && SavesFit(w) && StoresFit(w) && AcceptedOnly(w, w', item, client, more)
    ensures StoresFit(w')
  {
    assert PendingFits(w, item.requestId);
    OutstandingAfterAccept(w, w', client, more);
    forall c | c in w'.store ensures StoreFits(w', c) {
      assert StoreFits(w, c);
      if c != client {
        StoreFrame(w, w', c);
      } else if more != [] {
        assert Outstanding(w', client, |w.bff.service.saves|);
      }
    }
  }

  lemma AcceptedKeeps(w: World, w': World, item: Handling, client: string, more: seq<Save>)
    requires Fits(w) && AcceptedOnly(w, w', item, client, more)
    ensures Fits(w')
  {
    AcceptedPending(w, w', item, client, more);
    AcceptedStore(w, w', item, client, more);
    AcceptedSaves(w, w', item, client, more);
  }

  lemma AcceptedSaves(w: World, w': World, item: Handling, client: string, more: seq<Save>)
    requires Fits(w) && AcceptedOnly(w, w', item, client, more)
    ensures SavesFit(w')
  {
    assert PendingFits(w, item.requestId);
    OutstandingAfterAccept(w, w', client, more);
    if more != [] {
      AcceptedOutstanding(w, w', item, client, more);
    }
    forall c, k | Outstanding(w', c, k) ensures OutstandingFits(w', c, k) {
      if c != client {
        OutstandingFrame(w, w', c, k);
      }
    }
  }

  lemma RunSaveKeeps(w: World, n: nat)
    requires Sound(w) && Possible(w, RunSave(n))
    ensures Sound(Advanced(w, RunSave(n)))
  {
    var client := w.bff.service.saves[n].stateKey;
    assert Outstanding(w, client, n);
    SavedKeeps(w, Advanced(w, RunSave(n)), client, n);
  }

  /** What running a save changes. */
  predicate SavedOnly(w: World, w': World, client: string, n: nat) {
    && Outstanding(w, client, n)
    && w'.bff == w.bff && w'.requests == w.requests && w'.handled == w.handled && w'.accounts == w.accounts
    && w'.executed == w.executed + {n}
    && w'.store == w.store[client := w.bff.service.saves[n].stateJws]
  }

  lemma SavedKeeps(w: World, w': World, client: string, n: nat)
    requires Fits(w) && SavedOnly(w, w', client, n)
    ensures Fits(w')
  {
    SavedRequests(w, w', client, n);
    SavedStore(w, w', client, n);
  }

  lemma SavedRequests(w: World, w': World, client: string, n: nat)
    requires RequestsFit(w) && SavesFit(w) && SavedOnly(w, w', client, n)
    ensures RequestsFit(w') && SavesFit(w')
  {
    assert forall c, k :: Outstanding(w', c, k) <==> Outstanding(w, c, k) && k != n;
    forall id | id in w'.bff.service.pending ensures PendingFits(w', id) {
      assert PendingFits(w, id);
    }
    forall c, k | Outstanding(w', c, k) ensures OutstandingFits(w', c, k) {
      assert OutstandingFits(w, c, k);
    }
  }

  lemma SavedStore(w: World, w': World, client: string, n: nat)
    requires SavesFit(w) && StoresFit(w) && SavedOnly(w, w', client, n)
    ensures StoresFit(w')
  {
    assert OutstandingFits(w, client, n);
    forall c | c in w'.store ensures StoreFits(w', c) {
      if c != client {
        assert StoreFits(w, c);
        OthersUntouched(w, w', c, n);
      }
    }
  }

  lemma OthersUntouched(w: World, w': World, c: string, n: nat)
    requires n < |w.bff.service.saves| && w.bff.service.saves[n].stateKey != c
    requires w'.bff == w.bff && w'.executed == w.executed + {n}
    ensures NothingOutstanding(w', c) <==> NothingOutstanding(w, c)
  {
    assert forall k :: Outstanding(w', c, k) <==> Outstanding(w, c, k);
  }

  lemma WaitersKeep(w: World, s: BffStep)
    requires Sound(w) && Possible(w, Waiters(s))
    ensures Sound(Advanced(w, Waiters(s)))
  {
    MoveKeeps(w.bff, s);
    WaitersFrame(w.bff, s);
    SameButFleet(w, Advanced(w, Waiters(s)));
  }

  lemma LossesKeep(w: World, step: WorldStep)
    requires Sound(w) && Possible(w, step) && (step.ForgetState? || step.WorkerLoss?)
    ensures Sound(Advanced(w, step))
  {
    SameButFleet(w, Advanced(w, step));
  }

  lemma StepKeeps(w: World, step: WorldStep)
    requires Sound(w) && Possible(w, step)
    ensures Sound(Advanced(w, step))
  {
    match step
    case Enrol(client, request, r) => EnrolKeeps(w, client, request, r);
    case Send(client, id, outerJws, topic) => SendKeeps(w, client, id, outerJws, topic);
    case Work(worker, cfg, id, r) => WorkKeeps(w, worker, cfg, id, r);
    case Accept(k) => AcceptKeeps(w, k);
    case RunSave(k) => RunSaveKeeps(w, k);
    case ForgetState(_) => LossesKeep(w, step);
    case Waiters(s) => WaitersKeep(w, s);
    case WorkerLoss(_) => LossesKeep(w, step);
  }

  lemma {:induction false} RunsAreSound(responseTtl: nat, steps: seq<WorldStep>)
    ensures Sound(WorldAfter(responseTtl, steps))
  {
    if steps == [] {
      RunsAreConsistent(responseTtl, []);
    } else {
      RunsAreSound(responseTtl, steps[..|steps| - 1]);
      var before, last := WorldAfter(responseTtl, steps[..|steps| - 1]), steps[|steps| - 1];
      if Possible(before, last) {
        StepKeeps(before, last);
      }
    }
  }

  // === What every run guarantees ===

  /** The device a client's stored token decodes to. */
  function StoredDevice(w: World, client: string): Option<DeviceView> {
    if client in w.store && w.store[client].payload.Some? then Some(Abstract(w.store[client].payload.value)) else None
  }

  /** In every run, whatever is redelivered, reordered or lost, a stored token decodes to the client's first
      state with its log folded over it; while a save is under way the store lags by exactly the last entry.
      `Provenance` says where the log comes from. */
  lemma StoredStateIsTheFold(responseTtl: nat, steps: seq<WorldStep>, client: string)
    requires client in WorldAfter(responseTtl, steps).store
    ensures var w := WorldAfter(responseTtl, steps);
      && client in w.accounts
      && var a := w.accounts[client];
         && (NothingOutstanding(w, client) ==> StoredDevice(w, client) == Some(Folded(Abstract(a.first), a.log)))
         && (!NothingOutstanding(w, client) ==>
               |a.log| > 0 && StoredDevice(w, client) == Some(Folded(Abstract(a.first), a.log[..|a.log| - 1])))
  {
    RunsAreSound(responseTtl, steps);
    var w := WorldAfter(responseTtl, steps);
    assert StoreFits(w, client) && AccountAgrees(w.accounts[client]);
    if !NothingOutstanding(w, client) {
      var k :| 0 <= k < |w.bff.service.saves| && Outstanding(w, client, k);
      assert OutstandingFits(w, client, k);
    }
  }

  lemma {:induction false} FleetRunIsAllowed(responseTtl: nat, steps: seq<WorldStep>)
    ensures Fleet.AllowedRun(WorldAfter(responseTtl, steps).fleetSteps)
  {
    if steps != [] {
      FleetRunIsAllowed(responseTtl, steps[..|steps| - 1]);
      var before, last := WorldAfter(responseTtl, steps[..|steps| - 1]), steps[|steps| - 1];
      if Possible(before, last) && (last.Work? || last.WorkerLoss?) {
        var added := if last.Work?
                     then Fleet.Handle(last.worker, last.cfg, before.requests[last.requestId], last.replies)
                     else last.fleetStep;
        assert WorldAfter(responseTtl, steps).fleetSteps == before.fleetSteps + [added];
        assert (before.fleetSteps + [added])[..|before.fleetSteps|] == before.fleetSteps;
      }
    }
  }

  /** The session guarantees hold of the workers inside such a world too. */
  lemma OneHsmAnswerPerSession(responseTtl: nat, steps: seq<WorldStep>, id: SessionId)
    ensures SessionTheorems.HsmAnswers(Fleet.Run(WorldAfter(responseTtl, steps).fleetSteps).history, id) <= 1
  {
    FleetRunIsAllowed(responseTtl, steps);
    SessionTheorems.AtMostOneHsmAnswer(WorldAfter(responseTtl, steps).fleetSteps, id);
  }
}
