/** The BFF's response service: pending requests, one-shot channels to their waiters, and a response cache
    with a time to live for everyone else. */
module Responses {
  import opened Wrappers
  import opened Protocol
  import opened DeviceState
  import opened Worker
  import opened Channels

  /** The BFF keeps a worker response field by field. */
  type CachedResponse = HsmWorkerResponse

  datatype CachedEntry = CachedEntry(response: CachedResponse, expiresAt: nat)

  /** A spawned save of the device state. */
  datatype Save = Save(requestId: string, stateKey: string, stateJws: Jws<StateRecord>, ttlSeconds: nat)

  datatype ServiceState = ServiceState(
    pending: PendingMap,
    cache: map<string, CachedEntry>,
    channels: seq<Channel<CachedResponse>>,
    saves: seq<Save>)

  // === What the operations compute ===

  function Registered(s: ServiceState, r: Registration): ServiceState {
    s.(pending := WithEntry(s.pending, r, |s.channels|), channels := WithChannel(s.pending, s.channels, r.requestId))
  }

  /** The channel a response is owed to, if its request is still pending. */
  function OwedTo(s: ServiceState, response: CachedResponse): Option<nat> {
    if response.requestId in s.pending then Some(s.pending[response.requestId].tx) else None
  }

  /** First half of `response_ready`: the entry leaves the map, and a new state is on its way to the store. */
  function TakenUp(s: ServiceState, response: CachedResponse): ServiceState {
    var id := response.requestId;
    if id !in s.pending then s
    else
      var e := s.pending[id];
      s.(pending := s.pending - {id},
         saves := s.saves + match response.stateJws
                            case Some(token) => [Save(id, e.stateKey, token, e.ttlSeconds)]
                            case None => [])
  }

  function Parked(s: ServiceState, response: CachedResponse, expiresAt: nat): ServiceState {
    s.(cache := s.cache[response.requestId := CachedEntry(response, expiresAt)])
  }

  /** Second half: the waiter gets it, or it is parked. */
  function HandedOver(s: ServiceState, tx: Option<nat>, response: CachedResponse, expiresAt: nat): ServiceState {
    if tx.Some? && IsWaiting(s.channels, tx.value) then s.(channels := s.channels[tx.value := Holding(response)])
    else Parked(s, response, expiresAt)
  }

  // === Polling ===

  /** A response parked at a time. */
  datatype Park = Park(response: CachedResponse, at: nat)

  /** The last response parked for the id. */
  function LastParked(parks: seq<Park>, requestId: string): Option<Park> {
    if parks == [] then None
    else if parks[|parks| - 1].response.requestId == requestId then Some(parks[|parks| - 1])
    else LastParked(parks[..|parks| - 1], requestId)
  }

  /** What a map with a time to live holds for the id at `now`. */
  function Available(parks: seq<Park>, requestId: string, now: nat, ttl: nat): Option<CachedResponse> {
    match LastParked(parks, requestId)
    case Some(p) => if now < p.at + ttl then Some(p.response) else None
    case None => None
  }

  /** The cache holds the last parked response of each id, except some that have expired by `now`. */
  ghost predicate Refines(cache: map<string, CachedEntry>, parks: seq<Park>, now: nat, ttl: nat) {
    forall id: string ::
      match LastParked(parks, id)
      case None => id !in cache
      case Some(p) => if id in cache then cache[id] == CachedEntry(p.response, p.at + ttl) else p.at + ttl <= now
  }

  function ParkedAll(cache: map<string, CachedEntry>, parks: seq<Park>, ttl: nat): map<string, CachedEntry> {
    if parks == [] then cache
    else
      var last := parks[|parks| - 1];
      ParkedAll(cache, parks[..|parks| - 1], ttl)[last.response.requestId := CachedEntry(last.response, last.at + ttl)]
  }

  /** Parking keeps the refinement, whatever is parked and however late. */
  lemma {:induction false} ParkingRefines(cache: map<string, CachedEntry>, parks: seq<Park>, more: seq<Park>, now: nat,
                                          later: nat, ttl: nat)
    requires Refines(cache, parks, now, ttl) && now <= later
    ensures Refines(ParkedAll(cache, more, ttl), parks + more, later, ttl)
  {
    if more == [] {
      assert parks + more == parks;
    } else {
      var front := more[..|more| - 1];
      ParkingRefines(cache, parks, front, now, later, ttl);
      assert (parks + more)[..|parks + more| - 1] == parks + front;
    }
  }

  /** What a look at the cache returns, and what it leaves behind: an entry found expired is removed. */
  function Seen(cache: map<string, CachedEntry>, requestId: string, now: nat): Option<CachedResponse> {
    if requestId in cache && cache[requestId].expiresAt > now then Some(cache[requestId].response) else None
  }

  function Swept(cache: map<string, CachedEntry>, requestId: string, now: nat): map<string, CachedEntry> {
    if requestId in cache && cache[requestId].expiresAt <= now then cache - {requestId} else cache
  }

  /** A look answers as a map with a time to live would, and keeps the refinement. */
  lemma LookingRefines(cache: map<string, CachedEntry>, parks: seq<Park>, now: nat, later: nat, ttl: nat,
                       requestId: string)
    requires Refines(cache, parks, now, ttl) && now <= later
    ensures Seen(cache, requestId, later) == Available(parks, requestId, later, ttl)
    ensures Refines(Swept(cache, requestId, later), parks, later, ttl)
  {
  }

  lemma ParkingOneRefines(cache: map<string, CachedEntry>, parks: seq<Park>, park: Park, now: nat, ttl: nat)
    requires Refines(cache, parks, now, ttl)
    ensures Refines(cache[park.response.requestId := CachedEntry(park.response, park.at + ttl)], parks + [park], now,
                    ttl)
  {
    ParkingRefines(cache, parks, [park], now, now, ttl);
    assert [park][..0] == [];
  }

  /** Time, as one call of `wait_for_response` reads it: each round checks the cache, then the deadline, and
      sleeps 50 ms at least. `arrivals` are the responses other threads park before the round's check. */
  datatype Rounds = Rounds(start: nat, checkAt: nat -> nat, deadlineAt: nat -> nat, arrivals: nat -> seq<Park>)

  const POLL_INTERVAL: nat := 50

  ghost predicate Monotone(t: Rounds) {
    && t.start <= t.checkAt(0)
    && (forall i: nat :: t.checkAt(i) <= t.deadlineAt(i))
    && (forall i: nat, j: nat :: j == i + 1 ==> t.deadlineAt(i) + POLL_INTERVAL <= t.checkAt(j))
  }

  /** Everything parked by the time round `i` checks. */
  function ParksBy(parks: seq<Park>, t: Rounds, i: nat): seq<Park> {
    (if i == 0 then parks else ParksBy(parks, t, i - 1)) + t.arrivals(i)
  }

  function CeilDiv(a: nat, b: nat): (r: nat)
    requires b > 0
    ensures r * b >= a
    ensures r > 0 ==> (r - 1) * b < a
  {
    (a + b - 1) / b
  }

  // === The service ===

  class ResponseService {
    var pending: PendingMap
    var cache: map<string, CachedEntry>
    var channels: seq<Channel<CachedResponse>>
    var saves: seq<Save>
    const responseTtl: nat
    /** Everything ever parked, and the latest time the cache was consulted. */
    ghost var parks: seq<Park>
    ghost var clock: nat

    function State(): ServiceState
      reads this
    {
      ServiceState(pending, cache, channels, saves)
    }

    ghost predicate Ok()
      reads this
    {
      EntriesOpen(pending, channels) && Refines(cache, parks, clock, responseTtl)
    }

    constructor (responseTtl: nat)
      ensures Ok() && this.responseTtl == responseTtl
      ensures State() == ServiceState(map[], map[], [], []) && parks == [] && clock == 0
    {
      this.responseTtl := responseTtl;
      pending, cache, channels, saves, parks, clock := map[], map[], [], [], [], 0;
    }

    method StoreInCache(response: CachedResponse, now: nat)
      requires Ok()
      modifies this`cache, this`parks
      ensures Ok()
      ensures parks == old(parks) + [Park(response, now)]
      ensures State() == Parked(old(State()), response, now + responseTtl)
    {
      ParkingOneRefines(cache, parks, Park(response, now), clock, responseTtl);
      parks := parks + [Park(response, now)];
      cache := cache[response.requestId := CachedEntry(response, now + responseTtl)];
    }

    method RegisterPending(requestId: string, stateKey: string, ttlSeconds: nat) returns (rx: nat)
      requires Ok()
      modifies this`pending, this`channels
      ensures Ok()
      ensures rx == |old(channels)| < |channels| && channels[rx].Waiting?
      ensures pending == old(pending)[requestId := PendingEntry(stateKey, ttlSeconds, rx)]
      ensures forall c :: 0 <= c < rx ==>
                channels[c] ==
                if requestId in old(pending) && c == old(pending)[requestId].tx && old(channels)[c].Waiting?
                then Orphaned
                else old(channels)[c]
      ensures State() == Registered(old(State()), Registration(requestId, stateKey, ttlSeconds))
    {
      rx := |channels|;
      if requestId in pending && channels[pending[requestId].tx].Waiting? {
        channels := channels[pending[requestId].tx := Orphaned];
      }
      channels := channels + [Waiting];
      pending := pending[requestId := PendingEntry(stateKey, ttlSeconds, rx)];
    }

    /** Both halves in one go: either the waiter's channel is filled or the cache holds the response, never
        both, and the device state is saved only for a request that was pending. */
    method ResponseReady(response: HsmWorkerResponse, now: nat)
      requires Ok()
      modifies this
      ensures Ok()
      ensures response.requestId !in pending
      ensures var tx := OwedTo(old(State()), response);
        && State() == HandedOver(TakenUp(old(State()), response), tx, response, now + responseTtl)
        && (tx.Some? && old(channels)[tx.value].Waiting? <==> parks == old(parks))
        && (tx.Some? && old(channels)[tx.value].Waiting? ==>
              channels[tx.value] == Holding(response) && cache == old(cache))
        && (!(tx.Some? && old(channels)[tx.value].Waiting?) ==>
              channels == old(channels) && cache[response.requestId].response == response)
        && (tx.None? ==> saves == old(saves))
    {
      var cached := response;
      if response.requestId in pending {
        var e := pending[response.requestId];
        pending := pending - {response.requestId};
        if cached.stateJws.Some? {
          saves := saves + [Save(response.requestId, e.stateKey, cached.stateJws.value, e.ttlSeconds)];
        }
        if channels[e.tx].Waiting? {
          channels := channels[e.tx := Holding(cached)];
        } else {
          StoreInCache(cached, now);
        }
      } else {
        StoreInCache(cached, now);
      }
    }

    /** Whatever other threads park between two looks at the cache. */
    method OthersPark(arrivals: seq<Park>, now: nat)
      requires Ok() && clock <= now
      modifies this`cache, this`parks, this`clock
      ensures Ok() && clock == now
      ensures parks == old(parks) + arrivals
    {
      ParkingRefines(cache, parks, arrivals, clock, now, responseTtl);
      cache := ParkedAll(cache, arrivals, responseTtl);
      parks := parks + arrivals;
      clock := now;
    }

    /** One look: answers as a map with a time to live would, and removes an entry it finds expired. */
    method Look(requestId: string, now: nat) returns (r: Option<CachedResponse>)
      requires Ok() && clock <= now
      modifies this`cache, this`clock
      ensures Ok() && clock == now
      ensures r == Available(parks, requestId, now, responseTtl)
      ensures cache == Swept(old(cache), requestId, now)
    {
      LookingRefines(cache, parks, clock, now, responseTtl, requestId);
      clock := now;
      if requestId in cache {
        if cache[requestId].expiresAt > now {
          return Some(cache[requestId].response);
        }
        cache := cache - {requestId};
      }
      return None;
    }

    /** Polls until the response shows up or the deadline passes. The answer is the last response parked for
        the id and still fresh at the check; the number of rounds is bounded by the timeout alone. */
    method WaitForResponse(requestId: string, timeoutMs: nat, t: Rounds)
      returns (r: Option<CachedResponse>, rounds: nat)
      requires Ok() && Monotone(t) && clock <= t.checkAt(0)
      modifies this`cache, this`parks, this`clock
      ensures Ok()
      ensures 1 <= rounds <= (timeoutMs + 49) / 50 + 1
      ensures forall i :: 0 <= i < rounds - 1 ==>
                && Available(ParksBy(old(parks), t, i), requestId, t.checkAt(i), responseTtl).None?
                && t.deadlineAt(i) < t.start + timeoutMs
      ensures r == Available(ParksBy(old(parks), t, rounds - 1), requestId, t.checkAt(rounds - 1), responseTtl)
      ensures r.None? ==> t.deadlineAt(rounds - 1) >= t.start + timeoutMs
      ensures parks == ParksBy(old(parks), t, rounds - 1)
    {
      var deadline := t.start + timeoutMs;
      rounds := 0;
      while true
        invariant Ok() && clock <= t.checkAt(rounds)
        invariant parks == if rounds == 0 then old(parks) else ParksBy(old(parks), t, rounds - 1)
        invariant t.start + POLL_INTERVAL * rounds <= t.checkAt(rounds)
        invariant rounds > 0 ==> POLL_INTERVAL * (rounds - 1) < timeoutMs
        invariant forall i :: 0 <= i < rounds ==>
                    && Available(ParksBy(old(parks), t, i), requestId, t.checkAt(i), responseTtl).None?
                    && t.deadlineAt(i) < deadline
        decreases timeoutMs + POLL_INTERVAL - POLL_INTERVAL * rounds
      {
        OthersPark(t.arrivals(rounds), t.checkAt(rounds));
        var found := Look(requestId, t.checkAt(rounds));
        rounds := rounds + 1;
        if found.Some? {
          RoundsBounded(timeoutMs, rounds);
          return found, rounds;
        }
        if t.deadlineAt(rounds - 1) >= deadline {
          RoundsBounded(timeoutMs, rounds);
          return None, rounds;
        }
        assert t.deadlineAt(rounds - 1) + POLL_INTERVAL <= t.checkAt(rounds);
      }
    }
  }

  lemma RoundsBounded(timeoutMs: nat, rounds: nat)
    requires rounds > 0
    requires rounds > 1 ==> POLL_INTERVAL * (rounds - 2) < timeoutMs
    ensures rounds <= CeilDiv(timeoutMs, POLL_INTERVAL) + 1
  {
  }
}
