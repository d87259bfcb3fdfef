/** Any number of workers, any requests in any order, expiry, eviction and restarts: what every run keeps
    about sessions. */
module Fleet {
  import opened Wrappers
  import opened Protocol
  import opened DeviceState
  import opened Sessions
  import opened Operations
  import opened Worker
  import opened StateInitService

  type WorkerId = nat

  datatype WorkerState = WorkerState(cache: CacheMap, clock: nat)

  /** What one step leaves in the history. */
  datatype Event =
    | Handled(
        worker: WorkerId,
        requestId: string,
        op: Option<OperationId>,
        sessionId: Option<SessionId>,
        snapshot: Option<SessionState>,
        success: bool,
        commit: Option<Commit>,
        at: nat,
        from: StateRecord,
        issued: Option<StateRecord>)
    | Refusal
    | Initial(state: StateRecord)

  datatype Fleet = Fleet(workers: map<WorkerId, WorkerState>, history: seq<Event>)

  /** A request may be any message at all, so duplicates, losses and reorderings need no steps of their own. */
  datatype Step =
    | Handle(worker: WorkerId, cfg: WorkerConfig, request: HsmWorkerRequest, replies: Replies)
    | Initialise(init: StateInitRequest, initReplies: InitReplies)
    | Evict(worker: WorkerId, ids: set<SessionId>)
    | Restart(worker: WorkerId, clock: nat)

  function WorkerOf(f: Fleet, w: WorkerId): WorkerState {
    if w in f.workers then f.workers[w] else WorkerState(map[], 0)
  }

  function EventOf(worker: WorkerId, r: Replies, p: Processed): Event {
    match p.input
    case None => Refusal
    case Some(ctx) =>
      Handled(worker, ctx.requestId, Some(ctx.innerRequest.requestType), ctx.sessionId, ctx.sessionState,
              p.result.Ok?, p.commit, r.applyAt, ctx.state,
              match p.result
              case Ok(HsmWorkerResponse(_, Some(Jws(_, _, s)), _, _, _)) => s
              case _ => None)
  }

  function Stepped(f: Fleet, step: Step): Fleet {
    match step
    case Handle(w, cfg, request, r) =>
      var p := Process(cfg, WorkerOf(f, w).cache, request, r);
      Fleet(f.workers[w := WorkerState(p.cache, r.ttlAt)], f.history + [EventOf(w, r, p)])
    case Initialise(request, r) =>
      (match Initialized(request, r)
       case Ok(response) => f.(history := f.history + [Initial(response.stateJws.payload.value)])
       case Err(_) => f)
    case Evict(w, ids) => f.(workers := f.workers[w := WorkerOf(f, w).(cache := WorkerOf(f, w).cache - ids)])
    case Restart(w, clock) => f.(workers := f.workers[w := WorkerState(map[], clock)])
  }

  /** Clocks do not run backwards within a worker's life, and a generated session id was never used before. */
  predicate Allowed(f: Fleet, step: Step) {
    match step
    case Handle(w, _, _, r) =>
      && WorkerOf(f, w).clock <= r.readAt <= r.applyAt <= r.ttlAt
      && LifeOf(f.history, r.ports.freshId).Unborn?
    case _ => true
  }

  function Run(steps: seq<Step>): Fleet {
    if steps == [] then Fleet(map[], []) else Stepped(Run(steps[..|steps| - 1]), steps[|steps| - 1])
  }

  predicate AllowedRun(steps: seq<Step>) {
    steps == [] || (AllowedRun(steps[..|steps| - 1]) && Allowed(Run(steps[..|steps| - 1]), steps[|steps| - 1]))
  }

  // === The life of one session id, replayed from the history ===

  datatype Life =
    | Unborn
    | Born(home: WorkerId, bornAt: nat, wroteAt: nat, writes: nat, state: Option<SessionState>)

  function LiveOn(life: Life, worker: WorkerId, transition: SessionTransition, at: nat): Life {
    match life
    case Unborn =>
      if transition.CreatePendingAuth?
      then Born(worker, at, at, 1, Some(PendingAuth(PendingAuthData(transition.pendingState, transition.purpose))))
      else Unborn
    case Born(home, bornAt, wroteAt, writes, state) =>
      match Next(state, transition)
      case Ok(Set(s)) => Born(home, bornAt, at, writes + 1, Some(s))
      case Ok(Invalidate) => life.(state := None)
      case Err(_) => life
  }

  predicate CommitsOn(e: Event, id: SessionId) {
    e.Handled? && e.commit.Some? && e.commit.value.id == id
  }

  function LifeOf(history: seq<Event>, id: SessionId): Life {
    if history == [] then Unborn
    else
      var before, last := LifeOf(history[..|history| - 1], id), history[|history| - 1];
      if CommitsOn(last, id) then LiveOn(before, last.worker, last.commit.value.transition, last.at) else before
  }

  lemma LifeGrows(h: seq<Event>, e: Event, id: SessionId)
    ensures LifeOf(h + [e], id) ==
            if CommitsOn(e, id) then LiveOn(LifeOf(h, id), e.worker, e.commit.value.transition, e.at) else LifeOf(h, id)
  {
  }

  function Rank(life: Life): nat {
    match life
    case Unborn => 5
    case Born(_, _, _, _, None) => 0
    case Born(_, _, _, _, Some(s)) => StateRank(s)
  }

  // === What makes an event possible after a history ===

  /** A creation opens an unused id; every other commit continues the id's life, on its home worker, while
      the last write is still fresh. */
  predicate CommitLegal(life: Life, e: Event)
    requires e.Handled? && e.commit.Some?
  {
    var t := e.commit.value.transition;
    if t.CreatePendingAuth? then life.Unborn? && e.op == Some(AuthenticateStart)
    else
      && life.Born? && life.state.Some?
      && Next(life.state, t).Ok?
      && e.worker == life.home
      && e.at < life.wroteAt + SESSION_TTL
  }

  /** The snapshot an operation was decided on is the id's current state. */
  predicate SnapshotLegal(life: Life, e: Event)
    requires e.Handled?
  {
    e.snapshot.Some? ==> life.Born? && life.state == e.snapshot && e.worker == life.home
  }

  predicate AnswerLegal(e: Event)
    requires e.Handled? && e.op.Some?
  {
    var op := e.op.value;
    && (op.EncryptOption().Session? ==> e.sessionId.Some? && e.snapshot.Some? && e.snapshot.value.Active?)
    && (e.commit.Some? && !e.commit.value.transition.CreatePendingAuth? ==> e.sessionId == Some(e.commit.value.id))
    && (e.success && op.HsmMutating() ==> e.commit == Some(Commit(e.sessionId.value, MarkHsmOperationPerformed)))
    && (e.success && op.ChangePinStart? ==> e.commit == Some(Commit(e.sessionId.value, BeginChangingPin)))
    && (e.success && op.ChangePinFinish? ==> IsChangingPin(e.snapshot))
    && (e.success && (op.ChangePinFinish? || op.EndSession?) ==> e.commit == Some(Commit(e.sessionId.value, End)))
    && (e.commit.Some? && e.commit.value.transition.MarkHsmOperationPerformed? ==> op.HsmMutating())
    && (e.issued.Some? ==> e.success)
  }

  predicate Legal(h: seq<Event>, e: Event) {
    e.Handled? ==>
      && e.op.Some?
      && AnswerLegal(e)
      && (e.commit.Some? ==> CommitLegal(LifeOf(h, e.commit.value.id), e))
      && (e.sessionId.Some? ==> SnapshotLegal(LifeOf(h, e.sessionId.value), e))
  }

  predicate LegalHistory(h: seq<Event>) {
    h == [] || (LegalHistory(h[..|h| - 1]) && Legal(h[..|h| - 1], h[|h| - 1]))
  }

  // === The invariant of every run ===

  /** A cached entry is the current state of its id, and only the id's home worker holds it. */
  predicate CacheAgrees(h: seq<Event>, w: WorkerId, cache: CacheMap) {
    forall id :: id in cache ==> EntryAgrees(LifeOf(h, id), w, cache[id])
  }

  predicate EntryAgrees(life: Life, w: WorkerId, entry: CacheEntry) {
    life.Born? && life.home == w && life.state == Some(entry.state) && life.wroteAt == entry.insertedAt
  }

  predicate Invariant(f: Fleet) {
    && LegalHistory(f.history)
    && forall w :: w in f.workers ==> CacheAgrees(f.history, w, f.workers[w].cache)
  }

  /** Facts about one processed request, in the history's own terms. */
  lemma EventFacts(cfg: WorkerConfig, w: WorkerId, cache: CacheMap, request: HsmWorkerRequest, r: Replies)
    ensures var p := Process(cfg, cache, request, r);
            var e := EventOf(w, r, p);
      && (e.Handled? <==> p.input.Some?)
      && (p.commit.Some? ==> e.Handled?)
      && (e.Handled? ==>
            && e.commit == p.commit && e.worker == w && e.at == r.applyAt && e.op.Some?
            && AnswerLegal(e)
            && e.snapshot == Snapshot(cache, e.sessionId, r.readAt)
            && (e.commit.Some? && e.commit.value.transition.CreatePendingAuth? ==>
                  e.op == Some(AuthenticateStart) && e.commit.value.id == r.ports.freshId))
  {
    var p := Process(cfg, cache, request, r);
    ProcessShape(cfg, cache, request, r);
    if p.input.Some? {
      var ctx := p.input.value;
      var outcome := Dispatched(ctx, r.ports);
      FinishedFacts(cfg, cache, ctx, ContextFor(ctx), outcome, r);
      TransitionHasSession(cfg, cache, request, r);
      if outcome.Ok? {
        TransitionOf(ctx, r.ports);
        SnapshotGuards(ctx, r.ports);
      }
    }
  }

  /** Handling one request keeps the invariant. */
  lemma HandleKeepsInvariant(f: Fleet, w: WorkerId, cfg: WorkerConfig, request: HsmWorkerRequest, r: Replies)
    requires Invariant(f) && Allowed(f, Handle(w, cfg, request, r))
    ensures Invariant(Stepped(f, Handle(w, cfg, request, r)))
  {
    var cache := WorkerOf(f, w).cache;
    var p := Process(cfg, cache, request, r);
    var e := EventOf(w, r, p);
    var h := f.history;
    EventFacts(cfg, w, cache, request, r);
    CommitThenSuccessOrEncodeFailure(cfg, cache, request, r);
    assert CacheAgrees(h, w, cache);
    if e.Handled? && e.sessionId.Some? && e.snapshot.Some? {
      assert EntryAgrees(LifeOf(h, e.sessionId.value), w, cache[e.sessionId.value]);
    }
    if p.commit.Some? {
      CommitIsLegal(h, w, cache, p, e);
    }
    assert Legal(h, e);
    assert (h + [e])[..|h|] == h;
    var f' := Stepped(f, Handle(w, cfg, request, r));
    forall v | v in f'.workers ensures CacheAgrees(f'.history, v, f'.workers[v].cache) {
      if v == w {
        NewCacheAgrees(h, w, cache, p, e);
      } else {
        OtherCachesAgree(h, w, v, f.workers[v].cache, e);
      }
    }
  }

  /** The commit facts a processed request provides. */
  predicate CommitMade(cache: CacheMap, p: Processed, e: Event) {
    && e.Handled? && p.commit.Some? && e.commit == p.commit
    && Transitioned(cache, Some(p.commit.value.id), Some(p.commit.value.transition), e.at) == Ok(p.cache)
  }

  lemma CommitIsLegal(h: seq<Event>, w: WorkerId, cache: CacheMap, p: Processed, e: Event)
    requires CommitMade(cache, p, e) && e.worker == w
    requires CacheAgrees(h, w, cache)
    requires p.commit.value.transition.CreatePendingAuth? ==>
               LifeOf(h, p.commit.value.id).Unborn? && e.op == Some(AuthenticateStart)
    ensures CommitLegal(LifeOf(h, p.commit.value.id), e)
  {
  }

  lemma NewCacheAgrees(h: seq<Event>, w: WorkerId, cache: CacheMap, p: Processed, e: Event)
    requires CacheAgrees(h, w, cache)
    requires e.Handled? ==> e.worker == w && e.commit == p.commit
    requires p.commit.None? ==> p.cache == cache
    requires p.commit.Some? ==> CommitMade(cache, p, e) && CommitLegal(LifeOf(h, p.commit.value.id), e)
    ensures CacheAgrees(h + [e], w, p.cache)
  {
  }

  lemma OtherCachesAgree(h: seq<Event>, w: WorkerId, v: WorkerId, cache: CacheMap, e: Event)
    requires v != w && CacheAgrees(h, v, cache)
    requires e.Handled? ==> e.worker == w
    requires e.Handled? && e.commit.Some? ==> CommitLegal(LifeOf(h, e.commit.value.id), e)
    ensures CacheAgrees(h + [e], v, cache)
  {
  }

  lemma StepKeepsInvariant(f: Fleet, step: Step)
    requires Invariant(f) && Allowed(f, step)
    ensures Invariant(Stepped(f, step))
  {
    var f' := Stepped(f, step);
    match step
    case Handle(w, cfg, request, r) => HandleKeepsInvariant(f, w, cfg, request, r);
    case Initialise(request, r) =>
      if Initialized(request, r).Ok? {
        var e := f'.history[|f.history|];
        assert f'.history[..|f.history|] == f.history;
        forall v | v in f.workers ensures CacheAgrees(f'.history, v, f.workers[v].cache) {
          OtherCachesAgree(f.history, v + 1, v, f.workers[v].cache, e);
        }
      }
    case Evict(w, _) => assert CacheAgrees(f.history, w, WorkerOf(f, w).cache);
    case Restart(_, _) =>
  }

  /** Every run keeps the invariant. */
  lemma {:induction false} RunKeepsInvariant(steps: seq<Step>)
    requires AllowedRun(steps)
    ensures Invariant(Run(steps))
  {
    if steps != [] {
      RunKeepsInvariant(steps[..|steps| - 1]);
      StepKeepsInvariant(Run(steps[..|steps| - 1]), steps[|steps| - 1]);
    }
  }
}
