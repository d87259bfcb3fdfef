/** Every interleaving of requests, worker responses, waiters that give up and spawned saves at the BFF. */
module Delivery {
  import opened Wrappers
  import opened Worker
  import opened Channels
  import opened Responses

  datatype Phase = InFlight | Sent | InCache

  /** One call of `response_ready`: the channel it found its response owed to, and how far it has got. */
  datatype Call = Call(response: HsmWorkerResponse, tx: Option<nat>, phase: Phase)

  /** A call that parked its response, and when. */
  datatype Parking = Parking(call: nat, at: nat)

  /** `clock` is the last time the cache was looked at. */
  datatype Bff = Bff(
    service: ServiceState,
    registrations: seq<Registration>,
    calls: seq<Call>,
    parkings: seq<Parking>,
    clock: nat,
    responseTtl: nat)

  /** A handler gives up and drops its receiver in one step, only while nothing has been sent to it. */
  datatype BffStep =
    | Register(requestId: string, stateKey: string, ttlSeconds: nat)
    | Arrive(response: HsmWorkerResponse)
    | Finish(call: nat, at: nat)
    | GiveUp(channel: nat)
    | Receive(channel: nat)
    | Look(requestId: string, at: nat)

  /** A request id is a UUID drawn by the handler: nobody has used it yet. */
  predicate Fresh(b: Bff, requestId: string) {
    && (forall i :: 0 <= i < |b.registrations| ==> b.registrations[i].requestId != requestId)
    && !Answered(b.calls, requestId)
  }

  predicate Enabled(b: Bff, step: BffStep) {
    match step
    case Register(id, _, _) => Fresh(b, id)
    case Arrive(_) => true
    case Finish(n, _) => n < |b.calls| && b.calls[n].phase.InFlight?
    case GiveUp(c) => IsWaiting(b.service.channels, c)
    case Receive(c) => c < |b.service.channels| && b.service.channels[c].Holding?
    case Look(_, at) => b.clock <= at
  }

  function FinishedCall(b: Bff, n: nat): Call
    requires n < |b.calls|
  {
    var call := b.calls[n];
    call.(phase := if call.tx.Some? && IsWaiting(b.service.channels, call.tx.value) then Sent else InCache)
  }

  function Moved(b: Bff, step: BffStep): Bff
    requires Enabled(b, step)
  {
    match step
    case Register(id, key, ttl) =>
      var r := Registration(id, key, ttl);
      b.(service := Registered(b.service, r), registrations := b.registrations + [r])
    case Arrive(response) =>
      var call := Call(response, OwedTo(b.service, response), InFlight);
      b.(service := TakenUp(b.service, response), calls := b.calls + [call])
    case Finish(n, at) =>
      b.(service := HandedOver(b.service, b.calls[n].tx, b.calls[n].response, at + b.responseTtl),
         calls := b.calls[n := FinishedCall(b, n)],
         parkings := b.parkings + if FinishedCall(b, n).phase.InCache? then [Parking(n, at)] else [])
    case GiveUp(c) => b.(service := b.service.(channels := b.service.channels[c := Dropped]))
    case Receive(c) =>
      var received := Received(b.service.channels[c].response);
      b.(service := b.service.(channels := b.service.channels[c := received]))
    case Look(id, at) => b.(service := b.service.(cache := Swept(b.service.cache, id, at)), clock := at)
  }

  /** The state after a run; a step that is not enabled changes nothing. */
  function RunOf(responseTtl: nat, steps: seq<BffStep>): Bff {
    if steps == [] then Bff(ServiceState(map[], map[], [], []), [], [], [], 0, responseTtl)
    else
      var before, last := RunOf(responseTtl, steps[..|steps| - 1]), steps[|steps| - 1];
      if Enabled(before, last) then Moved(before, last) else before
  }

  // === The invariant ===

  predicate Answered(calls: seq<Call>, requestId: string) {
    exists n :: 0 <= n < |calls| && calls[n].response.requestId == requestId
  }

  predicate UniqueIds(rs: seq<Registration>) {
    forall i, j :: 0 <= i < j < |rs| ==> rs[i].requestId != rs[j].requestId
  }

  /** The pending ids are exactly those registered and not yet answered, each under its own registration. */
  predicate PendingAgrees(pending: PendingMap, rs: seq<Registration>, calls: seq<Call>) {
    && (forall id :: id in pending ==>
          && !Answered(calls, id)
          && pending[id].tx < |rs|
          && rs[pending[id].tx] == Registration(id, pending[id].stateKey, pending[id].ttlSeconds))
    && (forall i :: 0 <= i < |rs| ==> (rs[i].requestId in pending <==> !Answered(calls, rs[i].requestId)))
  }

  /** A call's channel is the one its request registered, and the channel's content tells how the call ended. */
  predicate CallAgrees(rs: seq<Registration>, channels: seq<Channel<CachedResponse>>, c: Call) {
    match c.tx
    case None => !c.phase.Sent?
    case Some(tx) =>
      && tx < |rs| && tx < |channels|
      && rs[tx].requestId == c.response.requestId
      && match c.phase
         case InFlight => channels[tx] == Waiting || channels[tx] == Dropped
         case Sent => channels[tx] == Holding(c.response) || channels[tx] == Received(c.response)
         case InCache => channels[tx] == Dropped
  }

  predicate CallsAgree(rs: seq<Registration>, channels: seq<Channel<CachedResponse>>, calls: seq<Call>) {
    forall n :: 0 <= n < |calls| ==> CallAgrees(rs, channels, calls[n])
  }

  /** No two calls are owed to one channel. */
  predicate OwnChannels(calls: seq<Call>) {
    forall m, n :: 0 <= m < n < |calls| && calls[m].tx.Some? ==> calls[m].tx != calls[n].tx
  }

  predicate SentBy(calls: seq<Call>, c: nat, r: HsmWorkerResponse) {
    exists n :: 0 <= n < |calls| && calls[n] == Call(r, Some(c), Sent)
  }

  /** A channel holds a value only if a call sent it, and is never orphaned. */
  predicate ChannelAgrees(calls: seq<Call>, c: nat, channel: Channel<CachedResponse>) {
    match channel
    case Waiting => true
    case Dropped => true
    case Orphaned => false
    case Holding(r) => SentBy(calls, c, r)
    case Received(r) => SentBy(calls, c, r)
  }

  predicate ChannelsAgree(channels: seq<Channel<CachedResponse>>, calls: seq<Call>) {
    forall c :: 0 <= c < |channels| ==> ChannelAgrees(calls, c, channels[c])
  }

  /** The saves spawned so far: one for each call that found its request pending and brought a state, under
      that registration's key and time to live. */
  function SavesOf(rs: seq<Registration>, calls: seq<Call>): seq<Save> {
    if calls == [] then [] else SavesOf(rs, calls[..|calls| - 1]) + SaveOf(rs, calls[|calls| - 1])
  }

  function SaveOf(rs: seq<Registration>, c: Call): seq<Save> {
    if c.tx.Some? && c.tx.value < |rs| && c.response.stateJws.Some?
    then [Save(rs[c.tx.value].requestId, rs[c.tx.value].stateKey, c.response.stateJws.value, rs[c.tx.value].ttlSeconds)]
    else []
  }

  predicate Consistent(b: Bff) {
    && |b.service.channels| == |b.registrations|
    && UniqueIds(b.registrations)
    && PendingAgrees(b.service.pending, b.registrations, b.calls)
    && CallsAgree(b.registrations, b.service.channels, b.calls)
    && OwnChannels(b.calls)
    && ChannelsAgree(b.service.channels, b.calls)
    && b.service.saves == SavesOf(b.registrations, b.calls)
  }

  // === Each step keeps it ===

  lemma {:induction false} SavesIgnoreNewRegistrations(rs: seq<Registration>, r: Registration, calls: seq<Call>)
    requires forall n :: 0 <= n < |calls| && calls[n].tx.Some? ==> calls[n].tx.value < |rs|
    ensures SavesOf(rs + [r], calls) == SavesOf(rs, calls)
  {
    if calls != [] {
      SavesIgnoreNewRegistrations(rs, r, calls[..|calls| - 1]);
    }
  }

  lemma {:induction false} SavesIgnorePhases(rs: seq<Registration>, calls: seq<Call>, n: nat, phase: Phase)
    requires n < |calls|
    ensures SavesOf(rs, calls[n := calls[n].(phase := phase)]) == SavesOf(rs, calls)
  {
    var calls' := calls[n := calls[n].(phase := phase)];
    var last := |calls| - 1;
    if n == last {
      assert calls'[..last] == calls[..last];
    } else {
      assert calls'[..last] == calls[..last][n := calls[n].(phase := phase)];
      SavesIgnorePhases(rs, calls[..last], n, phase);
    }
  }

  lemma RegisterKeeps(b: Bff, id: string, key: string, ttl: nat)
    requires Consistent(b) && Fresh(b, id)
    ensures Consistent(Moved(b, Register(id, key, ttl)))
  {
    var b' := Moved(b, Register(id, key, ttl));
    forall n | 0 <= n < |b.calls| ensures CallAgrees(b'.registrations, b'.service.channels, b.calls[n]) {
      assert CallAgrees(b.registrations, b.service.channels, b.calls[n]);
    }
    SavesIgnoreNewRegistrations(b.registrations, Registration(id, key, ttl), b.calls);
    forall c | 0 <= c < |b'.service.channels| ensures ChannelAgrees(b'.calls, c, b'.service.channels[c]) {
      if c < |b.service.channels| {
        assert ChannelAgrees(b.calls, c, b.service.channels[c]);
      }
    }
  }

  /** The waiter of a pending request has not been sent anything yet, and no earlier call was owed to it. */
  lemma OwedChannelIsOpen(b: Bff, response: HsmWorkerResponse)
    requires Consistent(b) && OwedTo(b.service, response).Some?
    ensures var tx := OwedTo(b.service, response).value;
      && CallAgrees(b.registrations, b.service.channels, Call(response, Some(tx), InFlight))
      && forall m :: 0 <= m < |b.calls| ==> b.calls[m].tx != Some(tx)
  {
  }

  lemma AnsweredGrows(calls: seq<Call>, call: Call)
    ensures forall id :: Answered(calls + [call], id) <==> Answered(calls, id) || id == call.response.requestId
  {
    forall id ensures Answered(calls + [call], id) <==> Answered(calls, id) || id == call.response.requestId {
      if Answered(calls, id) {
        var n :| 0 <= n < |calls| && calls[n].response.requestId == id;
        assert (calls + [call])[n] == calls[n];
      }
      assert (calls + [call])[|calls|] == call;
    }
  }

  lemma SentByGrows(channels: seq<Channel<CachedResponse>>, calls: seq<Call>, call: Call)
    requires ChannelsAgree(channels, calls)
    ensures ChannelsAgree(channels, calls + [call])
  {
    forall c | 0 <= c < |channels| ensures ChannelAgrees(calls + [call], c, channels[c]) {
      assert ChannelAgrees(calls, c, channels[c]);
      if channels[c].Holding? || channels[c].Received? {
        var n :| 0 <= n < |calls| && calls[n] == Call(channels[c].response, Some(c), Sent);
        assert (calls + [call])[n] == calls[n];
      }
    }
  }

  /** The new call is owed the entry of its own request, and nobody else is. */
  lemma ArriveKeepsCalls(b: Bff, response: HsmWorkerResponse)
    requires Consistent(b)
    ensures var calls' := b.calls + [Call(response, OwedTo(b.service, response), InFlight)];
            CallsAgree(b.registrations, b.service.channels, calls') && OwnChannels(calls')
  {
    var call := Call(response, OwedTo(b.service, response), InFlight);
    var calls' := b.calls + [call];
    if call.tx.Some? {
      OwedChannelIsOpen(b, response);
    }
    forall m | 0 <= m < |calls'| ensures CallAgrees(b.registrations, b.service.channels, calls'[m]) {
      assert m < |b.calls| ==> CallAgrees(b.registrations, b.service.channels, b.calls[m]);
    }
  }

  lemma ArriveKeepsPending(b: Bff, response: HsmWorkerResponse)
    requires Consistent(b)
    ensures var b' := Moved(b, Arrive(response)); PendingAgrees(b'.service.pending, b'.registrations, b'.calls)
  {
    AnsweredGrows(b.calls, Call(response, OwedTo(b.service, response), InFlight));
  }

  lemma ArriveKeepsSaves(b: Bff, response: HsmWorkerResponse)
    requires Consistent(b)
    ensures var b' := Moved(b, Arrive(response)); b'.service.saves == SavesOf(b'.registrations, b'.calls)
  {
    var calls' := b.calls + [Call(response, OwedTo(b.service, response), InFlight)];
    assert calls'[..|calls'| - 1] == b.calls;
  }

  lemma ArriveKeeps(b: Bff, response: HsmWorkerResponse)
    requires Consistent(b)
    ensures Consistent(Moved(b, Arrive(response)))
  {
    ArriveKeepsPending(b, response);
    ArriveKeepsCalls(b, response);
    ArriveKeepsSaves(b, response);
    SentByGrows(b.service.channels, b.calls, Call(response, OwedTo(b.service, response), InFlight));
  }

  lemma AnsweredIgnoresPhases(calls: seq<Call>, n: nat, phase: Phase)
    requires n < |calls|
    ensures forall id :: Answered(calls[n := calls[n].(phase := phase)], id) <==> Answered(calls, id)
  {
    var calls' := calls[n := calls[n].(phase := phase)];
    forall id ensures Answered(calls', id) <==> Answered(calls, id) {
      if Answered(calls, id) {
        var m :| 0 <= m < |calls| && calls[m].response.requestId == id;
        assert calls'[m].response.requestId == id;
      }
      if Answered(calls', id) {
        var m :| 0 <= m < |calls'| && calls'[m].response.requestId == id;
        assert calls[m].response.requestId == id;
      }
    }
  }

  lemma FinishKeeps(b: Bff, n: nat, at: nat)
    requires Consistent(b) && Enabled(b, Finish(n, at))
    ensures Consistent(Moved(b, Finish(n, at)))
  {
    var b' := Moved(b, Finish(n, at));
    SavesIgnorePhases(b.registrations, b.calls, n, FinishedCall(b, n).phase);
    AnsweredIgnoresPhases(b.calls, n, FinishedCall(b, n).phase);
    FinishKeepsCalls(b, n, at);
    FinishKeepsChannels(b, n, at);
  }

  lemma FinishKeepsCalls(b: Bff, n: nat, at: nat)
    requires Consistent(b) && Enabled(b, Finish(n, at))
    ensures var b' := Moved(b, Finish(n, at));
            CallsAgree(b'.registrations, b'.service.channels, b'.calls) && OwnChannels(b'.calls)
  {
    var b' := Moved(b, Finish(n, at));
    forall m | 0 <= m < |b'.calls| ensures CallAgrees(b'.registrations, b'.service.channels, b'.calls[m]) {
      assert CallAgrees(b.registrations, b.service.channels, b.calls[m]);
      assert m != n && b.calls[n].tx.Some? ==> b.calls[m].tx != b.calls[n].tx;
    }
  }

  lemma FinishKeepsChannels(b: Bff, n: nat, at: nat)
    requires Consistent(b) && Enabled(b, Finish(n, at))
    ensures var b' := Moved(b, Finish(n, at)); ChannelsAgree(b'.service.channels, b'.calls)
  {
    var b' := Moved(b, Finish(n, at));
    forall c | 0 <= c < |b'.service.channels| ensures ChannelAgrees(b'.calls, c, b'.service.channels[c]) {
      assert ChannelAgrees(b.calls, c, b.service.channels[c]);
      if b.service.channels[c].Holding? || b.service.channels[c].Received? {
        var m :| 0 <= m < |b.calls| && b.calls[m] == Call(b.service.channels[c].response, Some(c), Sent);
        assert b'.calls[m] == b.calls[m];
      } else if b'.service.channels[c].Holding? {
        assert b'.calls[n] == Call(b.calls[n].response, Some(c), Sent);
      }
    }
  }

  /** A step of one waiter changes its channel and nothing else. */
  lemma WaiterKeeps(b: Bff, step: BffStep)
    requires Consistent(b) && Enabled(b, step) && (step.GiveUp? || step.Receive?)
    ensures Consistent(Moved(b, step))
  {
  }

  /** Only registrations and arrivals touch the pending map and the saves. */
  lemma WaitersFrame(b: Bff, step: BffStep)
    requires Enabled(b, step) && !step.Register? && !step.Arrive?
    ensures Moved(b, step).service.pending == b.service.pending && Moved(b, step).service.saves == b.service.saves
  {
  }

  lemma MoveKeeps(b: Bff, step: BffStep)
    requires Consistent(b) && Enabled(b, step)
    ensures Consistent(Moved(b, step))
  {
    match step
    case Register(id, key, ttl) => RegisterKeeps(b, id, key, ttl);
    case Arrive(response) => ArriveKeeps(b, response);
    case Finish(n, at) => FinishKeeps(b, n, at);
    case GiveUp(_) => WaiterKeeps(b, step);
    case Receive(_) => WaiterKeeps(b, step);
    case Look(_, _) =>
  }

  lemma {:induction false} RunsAreConsistent(responseTtl: nat, steps: seq<BffStep>)
    ensures Consistent(RunOf(responseTtl, steps))
  {
    if steps != [] {
      RunsAreConsistent(responseTtl, steps[..|steps| - 1]);
      var before, last := RunOf(responseTtl, steps[..|steps| - 1]), steps[|steps| - 1];
      if Enabled(before, last) {
        MoveKeeps(before, last);
      }
    }
  }

  // === What every run guarantees ===

  /** A waiter got exactly this response. */
  predicate Reached(b: Bff, c: nat, r: HsmWorkerResponse) {
    c < |b.service.channels| && (b.service.channels[c] == Holding(r) || b.service.channels[c] == Received(r))
  }

  /** The responses parked so far, in order. */
  function ParksOf(calls: seq<Call>, parkings: seq<Parking>): seq<Park>
    requires forall i :: 0 <= i < |parkings| ==> parkings[i].call < |calls|
  {
    seq(|parkings|, i requires 0 <= i < |parkings| => Park(calls[parkings[i].call].response, parkings[i].at))
  }

  predicate IsParked(parkings: seq<Parking>, n: nat) {
    exists i :: 0 <= i < |parkings| && parkings[i].call == n
  }

  /** The calls that ended in the cache are those that parked, each once. */
  predicate ParkingsAgree(calls: seq<Call>, parkings: seq<Parking>) {
    && (forall i :: 0 <= i < |parkings| ==> parkings[i].call < |calls| && calls[parkings[i].call].phase.InCache?)
    && (forall i, j :: 0 <= i < j < |parkings| ==> parkings[i].call != parkings[j].call)
    && (forall n :: 0 <= n < |calls| && calls[n].phase.InCache? ==> IsParked(parkings, n))
  }

  /** The response cache refines a map with a time to live of what the calls parked. */
  ghost predicate CacheSound(b: Bff) {
    && ParkingsAgree(b.calls, b.parkings)
    && Refines(b.service.cache, ParksOf(b.calls, b.parkings), b.clock, b.responseTtl)
  }

  lemma OneMoreParked(parkings: seq<Parking>, p: Parking)
    ensures forall n :: IsParked(parkings + [p], n) <==> IsParked(parkings, n) || n == p.call
  {
    forall n ensures IsParked(parkings + [p], n) <==> IsParked(parkings, n) || n == p.call {
      if IsParked(parkings, n) {
        var i :| 0 <= i < |parkings| && parkings[i].call == n;
        assert (parkings + [p])[i].call == n;
      }
      assert (parkings + [p])[|parkings|] == p;
    }
  }

  lemma FinishKeepsParkings(calls: seq<Call>, parkings: seq<Parking>, n: nat, phase: Phase, at: nat)
    requires ParkingsAgree(calls, parkings) && n < |calls| && calls[n].phase.InFlight? && !phase.InFlight?
    ensures ParkingsAgree(calls[n := calls[n].(phase := phase)],
                          parkings + if phase.InCache? then [Parking(n, at)] else [])
  {
    var calls' := calls[n := calls[n].(phase := phase)];
    var parkings' := parkings + if phase.InCache? then [Parking(n, at)] else [];
    OneMoreParked(parkings, Parking(n, at));
    assert parkings' == if phase.InCache? then parkings + [Parking(n, at)] else parkings;
    forall m | 0 <= m < |calls'| && calls'[m].phase.InCache? ensures IsParked(parkings', m) {
      assert m != n ==> IsParked(parkings, m);
    }
  }

  lemma FinishParks(b: Bff, n: nat, at: nat)
    requires CacheSound(b) && Enabled(b, Finish(n, at))
    ensures CacheSound(Moved(b, Finish(n, at)))
  {
    FinishKeepsParkings(b.calls, b.parkings, n, FinishedCall(b, n).phase, at);
    var b' := Moved(b, Finish(n, at));
    var parks := ParksOf(b.calls, b.parkings);
    if FinishedCall(b, n).phase.InCache? {
      ParkingOneRefines(b.service.cache, parks, Park(b.calls[n].response, at), b.clock, b.responseTtl);
      assert ParksOf(b'.calls, b'.parkings) == parks + [Park(b.calls[n].response, at)];
    } else {
      assert ParksOf(b'.calls, b'.parkings) == parks;
    }
  }

  lemma MoveKeepsCache(b: Bff, step: BffStep)
    requires CacheSound(b) && Enabled(b, step)
    ensures CacheSound(Moved(b, step))
  {
    match step
    case Finish(n, at) => FinishParks(b, n, at);
    case Look(id, at) =>
      LookingRefines(b.service.cache, ParksOf(b.calls, b.parkings), b.clock, at, b.responseTtl, id);
    case _ =>
      assert ParksOf(Moved(b, step).calls, b.parkings) == ParksOf(b.calls, b.parkings);
  }

  lemma {:induction false} CacheIsSound(responseTtl: nat, steps: seq<BffStep>)
    ensures CacheSound(RunOf(responseTtl, steps)) && RunOf(responseTtl, steps).responseTtl == responseTtl
  {
    if steps != [] {
      CacheIsSound(responseTtl, steps[..|steps| - 1]);
      var before, last := RunOf(responseTtl, steps[..|steps| - 1]), steps[|steps| - 1];
      if Enabled(before, last) {
        MoveKeepsCache(before, last);
      }
    }
  }

  /** How a call ended, or that it has not: in its own waiter's channel, or parked exactly once. */
  predicate Settled(b: Bff, n: nat)
    requires n < |b.calls|
  {
    var call := b.calls[n];
    match call.phase
    case InFlight => !IsParked(b.parkings, n)
    case Sent => call.tx.Some? && Reached(b, call.tx.value, call.response) && !IsParked(b.parkings, n)
    case InCache =>
      && IsParked(b.parkings, n)
      && (call.tx.Some? ==> call.tx.value < |b.service.channels| && b.service.channels[call.tx.value].Dropped?)
  }

  /** What a waiter holds was sent by a call. */
  predicate HeldWasSent(b: Bff, c: nat)
    requires c < |b.service.channels|
  {
    var channel := b.service.channels[c];
    (channel.Holding? || channel.Received?) ==> SentBy(b.calls, c, channel.response)
  }

  /** Conservation: a finished call either filled its own waiter's channel or parked its response, never both
      and never neither, and parked it if it found no waiter; whatever a waiter holds was sent by exactly one
      call, and whatever was parked was parked by exactly one. */
  lemma Conservation(responseTtl: nat, steps: seq<BffStep>)
    ensures var b := RunOf(responseTtl, steps);
      && (forall n :: 0 <= n < |b.calls| ==> Settled(b, n))
      && (forall c :: 0 <= c < |b.service.channels| ==> HeldWasSent(b, c))
      && (forall m, n :: 0 <= m < n < |b.calls| && b.calls[m].phase.Sent? && b.calls[n].phase.Sent? ==>
            b.calls[m].tx != b.calls[n].tx)
      && (forall i, j :: 0 <= i < j < |b.parkings| ==> b.parkings[i].call != b.parkings[j].call)
  {
    RunsAreConsistent(responseTtl, steps);
    CacheIsSound(responseTtl, steps);
    var b := RunOf(responseTtl, steps);
    forall n | 0 <= n < |b.calls| ensures Settled(b, n) {
      assert CallAgrees(b.registrations, b.service.channels, b.calls[n]);
    }
    forall c | 0 <= c < |b.service.channels| ensures ChannelAgrees(b.calls, c, b.service.channels[c]) {
    }
  }

  /** In every run a look at the cache finds exactly the last response that a call parked for the id, while it
      is fresh. */
  lemma LooksFindTheLastParked(responseTtl: nat, steps: seq<BffStep>, requestId: string, at: nat)
    requires RunOf(responseTtl, steps).clock <= at
    ensures var b := RunOf(responseTtl, steps);
      && ParkingsAgree(b.calls, b.parkings)
      && Seen(b.service.cache, requestId, at) == Available(ParksOf(b.calls, b.parkings), requestId, at, responseTtl)
      && (Seen(b.service.cache, requestId, at).Some? ==>
            exists n :: 0 <= n < |b.calls| && b.calls[n].phase.InCache?
                        && b.calls[n].response == Seen(b.service.cache, requestId, at).value
                        && b.calls[n].response.requestId == requestId)
  {
    CacheIsSound(responseTtl, steps);
    var b := RunOf(responseTtl, steps);
    var parks := ParksOf(b.calls, b.parkings);
    LookingRefines(b.service.cache, parks, b.clock, at, responseTtl, requestId);
    if LastParked(parks, requestId).Some? {
      var i := LastParkedAt(parks, requestId);
      assert b.calls[b.parkings[i].call].phase.InCache?;
    }
  }

  lemma {:induction false} LastParkedAt(parks: seq<Park>, requestId: string) returns (i: nat)
    requires LastParked(parks, requestId).Some?
    ensures i < |parks| && parks[i] == LastParked(parks, requestId).value && parks[i].response.requestId == requestId
  {
    i := |parks| - 1;
    if parks[i].response.requestId != requestId {
      i := LastParkedAt(parks[..i], requestId);
    }
  }

  /** The second half of a call settles it: the waiter's channel or the cache, according to whether the
      waiter is still there, and for good. */
  lemma FinishSettles(b: Bff, n: nat, at: nat, later: BffStep)
    requires Enabled(b, Finish(n, at))
    ensures var b' := Moved(b, Finish(n, at));
      && (b'.calls[n].phase.Sent? <==> b.calls[n].tx.Some? && IsWaiting(b.service.channels, b.calls[n].tx.value))
      && (b'.calls[n].phase.Sent? ==>
            Reached(b', b.calls[n].tx.value, b.calls[n].response) && b'.service.cache == b.service.cache)
      && (!b'.calls[n].phase.Sent? ==>
            && b'.calls[n].phase.InCache? && b'.service.channels == b.service.channels
            && b'.service.cache ==
                 b.service.cache[b.calls[n].response.requestId := CachedEntry(b.calls[n].response, at + b.responseTtl)])
      && (Enabled(b', later) ==> Moved(b', later).calls[n] == b'.calls[n])
  {
  }

  /** The pending ids of any run are exactly those registered and not yet answered. */
  lemma PendingIsUnanswered(responseTtl: nat, steps: seq<BffStep>, requestId: string)
    ensures var b := RunOf(responseTtl, steps);
      requestId in b.service.pending <==>
        (exists i :: 0 <= i < |b.registrations| && b.registrations[i].requestId == requestId)
        && !Answered(b.calls, requestId)
  {
    RunsAreConsistent(responseTtl, steps);
  }

  predicate IsSaveOf(rs: seq<Registration>, c: Call, s: Save) {
    && c.tx.Some? && c.tx.value < |rs|
    && rs[c.tx.value] == Registration(s.requestId, s.stateKey, s.ttlSeconds)
    && c.response.requestId == s.requestId
    && c.response.stateJws == Some(s.stateJws)
  }

  /** The save is owed to a registration and the answer to it. */
  predicate ComesFrom(rs: seq<Registration>, calls: seq<Call>, s: Save) {
    exists n :: 0 <= n < |calls| && IsSaveOf(rs, calls[n], s)
  }

  predicate SingleSaves(rs: seq<Registration>, calls: seq<Call>, saves: seq<Save>) {
    && (forall k :: 0 <= k < |saves| ==> ComesFrom(rs, calls, saves[k]))
    && (forall i, j :: 0 <= i < j < |saves| ==> saves[i].requestId != saves[j].requestId)
  }

  /** Each registration causes at most one save, under its own state key and time to live; a response to an
      unknown or an already answered request causes none. */
  lemma OneSavePerRegistration(responseTtl: nat, steps: seq<BffStep>)
    ensures var b := RunOf(responseTtl, steps); SingleSaves(b.registrations, b.calls, b.service.saves)
  {
    RunsAreConsistent(responseTtl, steps);
    var b := RunOf(responseTtl, steps);
    SavesAreSingle(b.registrations, b.service.channels, b.calls);
  }

  lemma {:induction false} SavesAreSingle(rs: seq<Registration>, channels: seq<Channel<CachedResponse>>,
                                          calls: seq<Call>)
    requires UniqueIds(rs) && CallsAgree(rs, channels, calls) && OwnChannels(calls)
    ensures SingleSaves(rs, calls, SavesOf(rs, calls))
  {
    if calls != [] {
      var n := |calls| - 1;
      var front, last := calls[..n], calls[n];
      SavesAreSingle(rs, channels, front);
      var before, saves := SavesOf(rs, front), SavesOf(rs, calls);
      assert CallAgrees(rs, channels, last);
      forall k | 0 <= k < |saves| ensures ComesFrom(rs, calls, saves[k]) {
        if k < |before| {
          StillComesFrom(rs, front, last, before[k]);
          assert front + [last] == calls;
        } else {
          assert IsSaveOf(rs, calls[n], saves[k]);
        }
      }
      if |before| < |saves| {
        forall i | 0 <= i < |before| ensures before[i].requestId != saves[|before|].requestId {
          assert ComesFrom(rs, front, before[i]);
          var m :| 0 <= m < |front| && IsSaveOf(rs, front[m], before[i]);
          assert calls[m].tx != last.tx;
        }
      }
    }
  }

  lemma StillComesFrom(rs: seq<Registration>, calls: seq<Call>, call: Call, s: Save)
    requires ComesFrom(rs, calls, s)
    ensures ComesFrom(rs, calls + [call], s)
  {
    var n :| 0 <= n < |calls| && IsSaveOf(rs, calls[n], s);
    assert (calls + [call])[n] == calls[n];
  }
}
