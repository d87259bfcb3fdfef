/** The BFF's correlation of state-init responses: save first, then notify the waiter. */
module StateInitCorrelation {
  import opened Wrappers
  import opened Protocol
  import opened DeviceState
  import opened Channels
  import opened StateInitService

  /** A completed save of a device state. */
  datatype Save = Save(requestId: string, stateKey: string, stateJws: Jws<StateRecord>, ttlSeconds: nat)

  datatype State = State(
    pending: PendingMap,
    channels: seq<Channel<StateInitResponse>>,
    saves: seq<Save>,
    serverKey: Option<EcPublicJwk>)

  // === What the operations compute ===

  function Registered(s: State, r: Registration): State {
    s.(pending := WithEntry(s.pending, r, |s.channels|), channels := WithChannel(s.pending, s.channels, r.requestId))
  }

  /** The first key that arrives stays. */
  function KeyOffered(serverKey: Option<EcPublicJwk>, response: StateInitResponse): Option<EcPublicJwk> {
    if serverKey.Some? then serverKey else response.serverJwePublicKey
  }

  function EntryFor(s: State, response: StateInitResponse): Option<PendingEntry> {
    if response.requestId in s.pending then Some(s.pending[response.requestId]) else None
  }

  function SaveFor(e: PendingEntry, response: StateInitResponse): Save {
    Save(response.requestId, e.stateKey, response.stateJws, e.ttlSeconds)
  }

  function Notified(s: State, tx: nat, response: StateInitResponse): State {
    if IsWaiting(s.channels, tx) then s.(channels := s.channels[tx := Holding(response)]) else s
  }

  /** One call of `response_received`, undisturbed. */
  function Handled(s: State, response: StateInitResponse): State {
    var offered := s.(serverKey := KeyOffered(s.serverKey, response));
    match EntryFor(s, response)
    case None => offered
    case Some(e) =>
      Notified(offered.(pending := s.pending - {response.requestId}, saves := s.saves + [SaveFor(e, response)]), e.tx,
               response)
  }

  class StateInitCorrelationService {
    var pending: PendingMap
    var channels: seq<Channel<StateInitResponse>>
    var saves: seq<Save>
    var serverKey: Option<EcPublicJwk>

    function Contents(): State
      reads this
    {
      State(pending, channels, saves, serverKey)
    }

    constructor ()
      ensures Contents() == State(map[], [], [], None)
    {
      pending, channels, saves, serverKey := map[], [], [], None;
    }

    method RegisterPending(requestId: string, stateKey: string, ttlSeconds: nat) returns (rx: nat)
      requires EntriesOpen(pending, channels)
      modifies this`pending, this`channels
      ensures EntriesOpen(pending, channels)
              && Contents() == Registered(old(Contents()), Registration(requestId, stateKey, ttlSeconds))
      ensures rx == |old(channels)| < |channels| && channels[rx].Waiting?
      ensures pending == old(pending)[requestId := PendingEntry(stateKey, ttlSeconds, rx)]
      ensures forall c :: 0 <= c < rx ==>
                channels[c] ==
                if requestId in old(pending) && c == old(pending)[requestId].tx && old(channels)[c].Waiting?
                then Orphaned
                else old(channels)[c]
    {
      rx := |channels|;
      if requestId in pending && channels[pending[requestId].tx].Waiting? {
        channels := channels[pending[requestId].tx := Orphaned];
      }
      channels := channels + [Waiting];
      pending := pending[requestId := PendingEntry(stateKey, ttlSeconds, rx)];
    }

    /** A response nobody waits for may still bring the server key, and does nothing else. */
    method ResponseReceived(response: StateInitResponse)
      requires EntriesOpen(pending, channels)
      modifies this
      ensures Contents() == Handled(old(Contents()), response)
      ensures EntriesOpen(pending, channels) && response.requestId !in pending
      ensures serverKey == KeyOffered(old(serverKey), response)
      ensures match old(EntryFor(Contents(), response))
              case None => pending == old(pending) && channels == old(channels) && saves == old(saves)
              case Some(e) =>
                && pending == old(pending) - {response.requestId}
                && saves == old(saves) + [Save(response.requestId, e.stateKey, response.stateJws, e.ttlSeconds)]
                && channels ==
                     (if old(channels)[e.tx].Waiting? then old(channels)[e.tx := Holding(response)] else old(channels))
    {
      if response.serverJwePublicKey.Some? && serverKey.None? {
        serverKey := response.serverJwePublicKey;
      }
      if response.requestId !in pending {
        return;
      }
      var e := pending[response.requestId];
      pending := pending - {response.requestId};
      saves := saves + [SaveFor(e, response)];
      if channels[e.tx].Waiting? {
        channels := channels[e.tx := Holding(response)];
      }
    }
  }

  // === Every interleaving ===

  datatype Phase = Offered | Ignored | Taken | Stored | Done

  /** One call of `response_received` and how far it has got; `entry` is what it found pending. */
  datatype Call = Call(response: StateInitResponse, entry: Option<PendingEntry>, phase: Phase)

  datatype Bff = Bff(state: State, registrations: seq<Registration>, calls: seq<Call>)

  datatype Step =
    | Register(requestId: string, stateKey: string, ttlSeconds: nat)
    | Deliver(response: StateInitResponse)
    | TakeUp(call: nat)
    | WriteState(call: nat)
    | Notify(call: nat)
    | GiveUp(channel: nat)
    | Receive(channel: nat)

  predicate At(b: Bff, n: nat, phase: Phase) {
    n < |b.calls| && b.calls[n].phase == phase
  }

  /** The request id is a UUID drawn by the handler: nobody has used it yet. */
  predicate Fresh(b: Bff, requestId: string) {
    && (forall i :: 0 <= i < |b.registrations| ==> b.registrations[i].requestId != requestId)
    && (forall n :: 0 <= n < |b.calls| ==> b.calls[n].response.requestId != requestId)
  }

  predicate Enabled(b: Bff, step: Step) {
    match step
    case Register(id, _, _) => Fresh(b, id)
    case Deliver(_) => true
    case TakeUp(n) => At(b, n, Offered)
    case WriteState(n) => At(b, n, Taken)
    case Notify(n) => At(b, n, Stored)
    case GiveUp(c) => IsWaiting(b.state.channels, c)
    case Receive(c) => c < |b.state.channels| && b.state.channels[c].Holding?
  }

  function InPhase(b: Bff, n: nat, phase: Phase): seq<Call>
    requires n < |b.calls|
  {
    b.calls[n := b.calls[n].(phase := phase)]
  }

  function Moved(b: Bff, step: Step): Bff
    requires Enabled(b, step)
  {
    match step
    case Register(id, key, ttl) =>
      var r := Registration(id, key, ttl);
      b.(state := Registered(b.state, r), registrations := b.registrations + [r])
    case Deliver(response) =>
      b.(state := b.state.(serverKey := KeyOffered(b.state.serverKey, response)),
         calls := b.calls + [Call(response, None, Offered)])
    case TakeUp(n) =>
      var response := b.calls[n].response;
      var entry := EntryFor(b.state, response);
      b.(state := b.state.(pending := b.state.pending - {response.requestId}),
         calls := b.calls[n := Call(response, entry, if entry.Some? then Taken else Ignored)])
    case WriteState(n) =>
      b.(state := if b.calls[n].entry.Some?
                  then b.state.(saves := b.state.saves + [SaveFor(b.calls[n].entry.value, b.calls[n].response)])
                  else b.state,
         calls := InPhase(b, n, Stored))
    case Notify(n) =>
      b.(state := if b.calls[n].entry.Some?
                  then Notified(b.state, b.calls[n].entry.value.tx, b.calls[n].response)
                  else b.state,
         calls := InPhase(b, n, Done))
    case GiveUp(c) => b.(state := b.state.(channels := b.state.channels[c := Dropped]))
    case Receive(c) => b.(state := b.state.(channels := b.state.channels[c := Received(b.state.channels[c].response)]))
  }

  function Begin(): Bff {
    Bff(State(map[], [], [], None), [], [])
  }

  /** The state after a run; a step that is not enabled changes nothing. */
  function After(steps: seq<Step>): Bff {
    if steps == [] then Begin()
    else
      var before, last := After(steps[..|steps| - 1]), steps[|steps| - 1];
      if Enabled(before, last) then Moved(before, last) else before
  }

  /** The steps of a call that nothing comes between do what the method does. */
  lemma UndisturbedCall(b: Bff, response: StateInitResponse)
    ensures var n, b1 := |b.calls|, Moved(b, Deliver(response));
      && Enabled(b1, TakeUp(n))
      && var b2 := Moved(b1, TakeUp(n));
         if EntryFor(b.state, response).None? then b2.state == Handled(b.state, response) && b2.calls[n].phase.Ignored?
         else
           && Enabled(b2, WriteState(n))
           && var b3 := Moved(b2, WriteState(n));
              Enabled(b3, Notify(n)) && Moved(b3, Notify(n)).state == Handled(b.state, response)
  {
  }

  // === The invariant ===

  predicate OfRegistration(rs: seq<Registration>, requestId: string, e: PendingEntry) {
    e.tx < |rs| && rs[e.tx] == Registration(requestId, e.stateKey, e.ttlSeconds)
  }

  /** Exactly the calls past taking up hold an entry, their own; no two hold the same. */
  predicate CallAgrees(rs: seq<Registration>, pending: PendingMap, c: Call) {
    && (c.entry.Some? <==> c.phase.Taken? || c.phase.Stored? || c.phase.Done?)
    && (c.entry.Some? ==> OfRegistration(rs, c.response.requestId, c.entry.value) && c.response.requestId !in pending)
  }

  predicate OwnEntries(calls: seq<Call>) {
    forall m, n :: 0 <= m < n < |calls| && calls[m].entry.Some? && calls[n].entry.Some? ==>
      calls[m].response.requestId != calls[n].response.requestId
  }

  predicate HasStored(c: Call) {
    c.entry.Some? && (c.phase.Stored? || c.phase.Done?)
  }

  predicate Matched(calls: seq<Call>, n: nat, s: Save) {
    && n < |calls| && HasStored(calls[n])
    && s == SaveFor(calls[n].entry.value, calls[n].response)
  }

  ghost predicate ComesFrom(calls: seq<Call>, s: Save) {
    exists n: nat :: Matched(calls, n, s)
  }

  /** The completed saves are those of the calls that have stored, each once. */
  ghost predicate SavesAgree(calls: seq<Call>, saves: seq<Save>) {
    && (forall k :: 0 <= k < |saves| ==> ComesFrom(calls, saves[k]))
    && (forall n :: 0 <= n < |calls| && HasStored(calls[n]) ==>
          SaveFor(calls[n].entry.value, calls[n].response) in saves)
    && (forall i, j :: 0 <= i < j < |saves| ==> saves[i].requestId != saves[j].requestId)
  }

  predicate NotifiedBy(calls: seq<Call>, n: nat, c: nat, r: StateInitResponse) {
    n < |calls| && calls[n].response == r && calls[n].phase.Done? && calls[n].entry.Some?
    && calls[n].entry.value.tx == c
  }

  ghost predicate ChannelAgrees(calls: seq<Call>, c: nat, channel: Channel<StateInitResponse>) {
    (channel.Holding? || channel.Received?) ==> exists n: nat :: NotifiedBy(calls, n, c, channel.response)
  }

  /** The key of the first response that brought one. */
  function FirstKey(calls: seq<Call>): Option<EcPublicJwk> {
    if calls == [] then None
    else
      var before := FirstKey(calls[..|calls| - 1]);
      if before.Some? then before else calls[|calls| - 1].response.serverJwePublicKey
  }

  ghost predicate Consistent(b: Bff) {
    && |b.state.channels| == |b.registrations|
    && (forall i, j :: 0 <= i < j < |b.registrations| ==> b.registrations[i].requestId != b.registrations[j].requestId)
    && (forall id :: id in b.state.pending ==> OfRegistration(b.registrations, id, b.state.pending[id]))
    && (forall n :: 0 <= n < |b.calls| ==> CallAgrees(b.registrations, b.state.pending, b.calls[n]))
    && OwnEntries(b.calls)
    && SavesAgree(b.calls, b.state.saves)
    && (forall c :: 0 <= c < |b.state.channels| ==> ChannelAgrees(b.calls, c, b.state.channels[c]))
    && b.state.serverKey == FirstKey(b.calls)
  }

  // === Each step keeps it ===

  /** A step that replaces one call by itself further on, or adds one that has found nothing yet. */
  lemma ChannelsKeep(calls: seq<Call>, calls': seq<Call>, channels: seq<Channel<StateInitResponse>>)
    requires forall c :: 0 <= c < |channels| ==> ChannelAgrees(calls, c, channels[c])
    requires |calls| <= |calls'| && forall n :: 0 <= n < |calls| && calls[n].phase.Done? ==> calls'[n] == calls[n]
    ensures forall c :: 0 <= c < |channels| ==> ChannelAgrees(calls', c, channels[c])
  {
    forall c | 0 <= c < |channels| ensures ChannelAgrees(calls', c, channels[c]) {
      assert ChannelAgrees(calls, c, channels[c]);
      if channels[c].Holding? || channels[c].Received? {
        var n: nat :| NotifiedBy(calls, n, c, channels[c].response);
        assert NotifiedBy(calls', n, c, channels[c].response);
      }
    }
  }

  lemma SavesKeep(calls: seq<Call>, calls': seq<Call>, saves: seq<Save>)
    requires SavesAgree(calls, saves)
    requires |calls| <= |calls'|
    requires forall n :: 0 <= n < |calls| && HasStored(calls[n]) ==>
                           HasStored(calls'[n]) && calls'[n].entry == calls[n].entry
                           && calls'[n].response == calls[n].response
    requires forall n :: 0 <= n < |calls'| && HasStored(calls'[n]) ==> n < |calls| && HasStored(calls[n])
    ensures SavesAgree(calls', saves)
  {
    forall k | 0 <= k < |saves| ensures ComesFrom(calls', saves[k]) {
      assert ComesFrom(calls, saves[k]);
      var n: nat :| Matched(calls, n, saves[k]);
      assert Matched(calls', n, saves[k]);
    }
  }

  lemma {:induction false} FirstKeyIgnoresProgress(calls: seq<Call>, n: nat, call: Call)
    requires n < |calls| && call.response == calls[n].response
    ensures FirstKey(calls[n := call]) == FirstKey(calls)
  {
    var last := |calls| - 1;
    if n == last {
      assert calls[n := call][..last] == calls[..last];
    } else {
      assert calls[n := call][..last] == calls[..last][n := call];
      FirstKeyIgnoresProgress(calls[..last], n, call);
    }
  }

  lemma RegisterKeeps(b: Bff, id: string, key: string, ttl: nat)
    requires Consistent(b) && Fresh(b, id)
    ensures Consistent(Moved(b, Register(id, key, ttl)))
  {
  }

  lemma DeliverKeeps(b: Bff, response: StateInitResponse)
    requires Consistent(b)
    ensures Consistent(Moved(b, Deliver(response)))
  {
    var b' := Moved(b, Deliver(response));
    assert b'.calls[..|b.calls|] == b.calls;
    ChannelsKeep(b.calls, b'.calls, b.state.channels);
    SavesKeep(b.calls, b'.calls, b.state.saves);
  }

  lemma TakeUpKeeps(b: Bff, n: nat)
    requires Consistent(b) && Enabled(b, TakeUp(n))
    ensures Consistent(Moved(b, TakeUp(n)))
  {
    var b' := Moved(b, TakeUp(n));
    assert CallAgrees(b.registrations, b.state.pending, b.calls[n]);
    ChannelsKeep(b.calls, b'.calls, b.state.channels);
    SavesKeep(b.calls, b'.calls, b.state.saves);
    FirstKeyIgnoresProgress(b.calls, n, b'.calls[n]);
    forall m | 0 <= m < |b'.calls| ensures CallAgrees(b'.registrations, b'.state.pending, b'.calls[m]) {
      assert CallAgrees(b.registrations, b.state.pending, b.calls[m]);
    }
    forall m | 0 <= m < |b.calls| && m != n && b.calls[m].entry.Some? && b'.calls[n].entry.Some?
      ensures b.calls[m].response.requestId != b.calls[n].response.requestId
    {
      assert CallAgrees(b.registrations, b.state.pending, b.calls[m]);
    }
  }

  lemma WriteStateKeeps(b: Bff, n: nat)
    requires Consistent(b) && Enabled(b, WriteState(n))
    ensures Consistent(Moved(b, WriteState(n)))
  {
    var b' := Moved(b, WriteState(n));
    assert CallAgrees(b.registrations, b.state.pending, b.calls[n]);
    ChannelsKeep(b.calls, b'.calls, b.state.channels);
    FirstKeyIgnoresProgress(b.calls, n, b'.calls[n]);
    forall m | 0 <= m < |b'.calls| ensures CallAgrees(b'.registrations, b'.state.pending, b'.calls[m]) {
      assert CallAgrees(b.registrations, b.state.pending, b.calls[m]);
    }
    StoredSavesAgree(b.calls, n, b.state.saves);
  }

  lemma StoredSavesAgree(calls: seq<Call>, n: nat, saves: seq<Save>)
    requires SavesAgree(calls, saves) && OwnEntries(calls)
    requires n < |calls| && calls[n].phase.Taken? && calls[n].entry.Some?
    ensures SavesAgree(calls[n := calls[n].(phase := Stored)],
                       saves + [SaveFor(calls[n].entry.value, calls[n].response)])
  {
    var calls', save := calls[n := calls[n].(phase := Stored)], SaveFor(calls[n].entry.value, calls[n].response);
    var saves' := saves + [save];
    forall k | 0 <= k < |saves'| ensures ComesFrom(calls', saves'[k]) {
      if k < |saves| {
        assert ComesFrom(calls, saves[k]);
        var m: nat :| Matched(calls, m, saves[k]);
        assert Matched(calls', m, saves'[k]);
      } else {
        assert Matched(calls', n, save);
      }
    }
    forall k | 0 <= k < |saves| ensures saves[k].requestId != save.requestId {
      assert ComesFrom(calls, saves[k]);
      var m: nat :| Matched(calls, m, saves[k]);
      assert m < n || n < m;
    }
    assert save == saves'[|saves|];
  }

  lemma NotifyKeeps(b: Bff, n: nat)
    requires Consistent(b) && Enabled(b, Notify(n))
    ensures Consistent(Moved(b, Notify(n)))
  {
    var b' := Moved(b, Notify(n));
    assert CallAgrees(b.registrations, b.state.pending, b.calls[n]);
    ChannelsKeep(b.calls, b'.calls, b.state.channels);
    SavesKeep(b.calls, b'.calls, b.state.saves);
    FirstKeyIgnoresProgress(b.calls, n, b'.calls[n]);
    forall m | 0 <= m < |b'.calls| ensures CallAgrees(b'.registrations, b'.state.pending, b'.calls[m]) {
      assert CallAgrees(b.registrations, b.state.pending, b.calls[m]);
    }
    forall c | 0 <= c < |b'.state.channels| ensures ChannelAgrees(b'.calls, c, b'.state.channels[c]) {
      assert NotifiedBy(b'.calls, n, b.calls[n].entry.value.tx, b.calls[n].response);
    }
  }

  lemma WaiterKeeps(b: Bff, step: Step)
    requires Consistent(b) && Enabled(b, step) && (step.GiveUp? || step.Receive?)
    ensures Consistent(Moved(b, step))
  {
  }

  lemma StepKeeps(b: Bff, step: Step)
    requires Consistent(b) && Enabled(b, step)
    ensures Consistent(Moved(b, step))
  {
    match step
    case Register(id, key, ttl) => RegisterKeeps(b, id, key, ttl);
    case Deliver(response) => DeliverKeeps(b, response);
    case TakeUp(n) => TakeUpKeeps(b, n);
    case WriteState(n) => WriteStateKeeps(b, n);
    case Notify(n) => NotifyKeeps(b, n);
    case GiveUp(_) => WaiterKeeps(b, step);
    case Receive(_) => WaiterKeeps(b, step);
  }

  lemma {:induction false} RunsAreConsistent(steps: seq<Step>)
    ensures Consistent(After(steps))
  {
    if steps != [] {
      RunsAreConsistent(steps[..|steps| - 1]);
      var before, last := After(steps[..|steps| - 1]), steps[|steps| - 1];
      if Enabled(before, last) {
        StepKeeps(before, last);
      }
    }
  }

  // === What every run guarantees ===

  /** When a waiter has its response, the state in it has already been saved, under the client id the waiter
      answers with and for its time to live. */
  lemma SavedBeforeAnswered(steps: seq<Step>, c: nat)
    requires c < |After(steps).state.channels|
    requires After(steps).state.channels[c].Holding? || After(steps).state.channels[c].Received?
    ensures var b := After(steps);
      && c < |b.registrations|
      && var r, response := b.registrations[c], b.state.channels[c].response;
         response.requestId == r.requestId
         && Save(r.requestId, r.stateKey, response.stateJws, r.ttlSeconds) in b.state.saves
  {
    RunsAreConsistent(steps);
    var b := After(steps);
    assert ChannelAgrees(b.calls, c, b.state.channels[c]);
    var n: nat :| NotifiedBy(b.calls, n, c, b.state.channels[c].response);
    assert HasStored(b.calls[n]);
    assert CallAgrees(b.registrations, b.state.pending, b.calls[n]);
  }

  predicate IsRegistered(rs: seq<Registration>, s: Save) {
    exists i :: 0 <= i < |rs| && rs[i] == Registration(s.requestId, s.stateKey, s.ttlSeconds)
  }

  /** Saves come from registrations only, at most one each: a response nobody registered for, or a second one,
      writes no device state. */
  lemma OneSavePerRegistration(steps: seq<Step>)
    ensures var b := After(steps);
      && (forall k :: 0 <= k < |b.state.saves| ==> IsRegistered(b.registrations, b.state.saves[k]))
      && (forall i, j :: 0 <= i < j < |b.state.saves| ==> b.state.saves[i].requestId != b.state.saves[j].requestId)
  {
    RunsAreConsistent(steps);
    var b := After(steps);
    forall k | 0 <= k < |b.state.saves| ensures IsRegistered(b.registrations, b.state.saves[k]) {
      assert ComesFrom(b.calls, b.state.saves[k]);
      var n: nat :| Matched(b.calls, n, b.state.saves[k]);
      assert CallAgrees(b.registrations, b.state.pending, b.calls[n]);
    }
  }

  ghost predicate SavedByOther(calls: seq<Call>, n: nat, s: Save) {
    exists m: nat :: m != n && Matched(calls, m, s)
  }

  ghost predicate NotifiedByOther(calls: seq<Call>, n: nat, c: nat, channel: Channel<StateInitResponse>) {
    (channel.Holding? || channel.Received?) ==> exists m: nat :: m != n && NotifiedBy(calls, m, c, channel.response)
  }

  lemma IgnoredStays(b: Bff, n: nat, step: Step)
    requires Consistent(b) && Enabled(b, step) && n < |b.calls| && b.calls[n].phase.Ignored?
    ensures n < |Moved(b, step).calls| && Moved(b, step).calls[n] == b.calls[n]
  {
  }

  /** An unmatched response stays ignored in every continuation of every run: every save and
      every waiter's response comes from some other call. */
  lemma {:induction false} UnmatchedWritesNothing(steps: seq<Step>, more: seq<Step>, n: nat)
    requires n < |After(steps).calls| && After(steps).calls[n].phase.Ignored?
    ensures var b := After(steps + more);
      && n < |b.calls| && b.calls[n] == After(steps).calls[n] && b.calls[n].entry.None?
      && (forall k :: 0 <= k < |b.state.saves| ==> SavedByOther(b.calls, n, b.state.saves[k]))
      && (forall c :: 0 <= c < |b.state.channels| ==> NotifiedByOther(b.calls, n, c, b.state.channels[c]))
    decreases |more|
  {
    RunsAreConsistent(steps + more);
    if more == [] {
      assert steps + more == steps;
    } else {
      var front := more[..|more| - 1];
      assert (steps + more)[..|steps + more| - 1] == steps + front;
      UnmatchedWritesNothing(steps, front, n);
      var before, last := After(steps + front), more[|more| - 1];
      if Enabled(before, last) {
        RunsAreConsistent(steps + front);
        IgnoredStays(before, n, last);
      }
    }
    var b := After(steps + more);
    assert CallAgrees(b.registrations, b.state.pending, b.calls[n]);
    forall k | 0 <= k < |b.state.saves| ensures SavedByOther(b.calls, n, b.state.saves[k]) {
      assert ComesFrom(b.calls, b.state.saves[k]);
    }
    forall c | 0 <= c < |b.state.channels| ensures NotifiedByOther(b.calls, n, c, b.state.channels[c]) {
      assert ChannelAgrees(b.calls, c, b.state.channels[c]);
    }
  }

  /** The server key is that of the first response that brought one, in every run. */
  lemma ServerKeyIsTheFirst(steps: seq<Step>)
    ensures After(steps).state.serverKey == FirstKey(After(steps).calls)
  {
    RunsAreConsistent(steps);
  }

  /** And once set it never changes, whatever happens next. */
  lemma {:induction false} ServerKeyNeverChanges(steps: seq<Step>, more: seq<Step>)
    requires After(steps).state.serverKey.Some?
    ensures After(steps + more).state.serverKey == After(steps).state.serverKey
  {
    if more == [] {
      assert steps + more == steps;
    } else {
      var front := more[..|more| - 1];
      assert (steps + more)[..|steps + more| - 1] == steps + front;
      ServerKeyNeverChanges(steps, front);
    }
  }
}
