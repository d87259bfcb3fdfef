/** The session state machine and the in-memory cache, with a time to live, that holds it. */
module Sessions {
  import opened Wrappers
  import opened Protocol

  datatype PendingAuthData = PendingAuthData(serverLogin: Bytes, purpose: Option<string>)

  datatype OngoingOperation = ChangingPin

  datatype SessionData = SessionData(
    sessionKey: Bytes,
    purpose: Option<string>,
    operation: Option<OngoingOperation>,
    hasPerformedHsmOperation: bool)

  datatype SessionState = PendingAuth(pending: PendingAuthData) | Active(data: SessionData)

  datatype SessionTransition =
    | CreatePendingAuth(pendingState: Bytes, purpose: Option<string>)
    | Authenticate(sessionKey: Bytes)
    | BeginChangingPin
    | MarkHsmOperationPerformed
    | End

  datatype SessionStateError = UnknownSession | InvalidTransition

  datatype NextState = Set(state: SessionState) | Invalidate

  function Next(current: Option<SessionState>, transition: SessionTransition): Result<NextState, SessionStateError> {
    match (current, transition)
    case (None, CreatePendingAuth(pendingState, purpose)) =>
      Ok(Set(PendingAuth(PendingAuthData(pendingState, purpose))))
    case (Some(PendingAuth(pending)), Authenticate(sessionKey)) =>
      Ok(Set(Active(SessionData(sessionKey, pending.purpose, None, false))))
    case (Some(Active(data)), BeginChangingPin) =>
      if data.operation.None? then Ok(Set(Active(data.(operation := Some(ChangingPin))))) else Err(InvalidTransition)
    case (Some(Active(data)), MarkHsmOperationPerformed) =>
      if data.operation.None? && !data.hasPerformedHsmOperation
      then Ok(Set(Active(data.(hasPerformedHsmOperation := true))))
      else Err(InvalidTransition)
    case (Some(Active(_)), End) => Ok(Invalidate)
    case _ => Err(InvalidTransition)
  }

  /** The state a successful transition leaves behind. */
  function After(next: NextState): Option<SessionState> {
    match next
    case Set(s) => Some(s)
    case Invalidate => None
  }

  // === The rank that every transition lowers ===

  /** How far a live session is from its end. */
  function StateRank(s: SessionState): (r: nat)
    ensures 1 <= r <= 4
  {
    match s
    case PendingAuth(_) => 4
    case Active(data) =>
      if data.operation.Some? then 1
      else if data.hasPerformedHsmOperation then 2
      else 3
  }

  /** Each transition leaves from the ranks it is allowed at and lands strictly lower; authentication
      alone sets the key, the purpose never changes, and `End` is the only way out. */
  lemma TransitionLowersRank(current: SessionState, transition: SessionTransition)
    requires Next(Some(current), transition).Ok?
    ensures match Next(Some(current), transition).value
            case Invalidate => transition.End? && current.Active? && StateRank(current) <= 3
            case Set(s) =>
              && s.Active?
              && StateRank(s) < StateRank(current)
              && (transition.Authenticate? <==> StateRank(current) == 4)
              && (transition.Authenticate? ==>
                    && StateRank(s) == 3 && s.data.purpose == current.pending.purpose
                    && s.data.sessionKey == transition.sessionKey)
              && (transition.MarkHsmOperationPerformed? ==> StateRank(current) == 3 && StateRank(s) == 2)
              && (transition.BeginChangingPin? ==> StateRank(current) in {2, 3} && StateRank(s) == 1)
              && (current.Active? ==>
                    s.data.sessionKey == current.data.sessionKey && s.data.purpose == current.data.purpose)
  {
  }

  // === The cache ===

  /** 600 seconds, in milliseconds. */
  const SESSION_TTL: nat := 600_000

  datatype CacheEntry = CacheEntry(state: SessionState, insertedAt: nat)

  type CacheMap = map<SessionId, CacheEntry>

  /** What a read at `now` returns: an entry is gone once its age reaches the time to live. */
  function Lookup(cache: CacheMap, id: SessionId, now: nat): Option<SessionState> {
    if id in cache && now < cache[id].insertedAt + SESSION_TTL then Some(cache[id].state) else None
  }

  /** `Lookup` for the optional id of a request. */
  function Snapshot(cache: CacheMap, id: Option<SessionId>, now: nat): Option<SessionState> {
    match id
    case None => None
    case Some(i) => Lookup(cache, i, now)
  }

  /** The cache after a transition at `now`, or why it was refused. */
  function Transitioned(cache: CacheMap, id: Option<SessionId>, transition: Option<SessionTransition>, now: nat)
    : Result<CacheMap, SessionStateError>
  {
    match transition
    case None => Ok(cache)
    case Some(t) =>
      if id.None? then Err(SessionStateError.UnknownSession)
      else
        match Next(Lookup(cache, id.value, now), t)
        case Err(e) => Err(e)
        case Ok(Set(state)) => Ok(cache[id.value := CacheEntry(state, now)])
        case Ok(Invalidate) => Ok(cache - {id.value})
  }

  function CheckedSub(a: nat, b: nat): Option<nat> {
    if b <= a then
      var left: nat := a - b;
      Some(left)
    else None
  }

  function RemainingTtl(cache: CacheMap, id: Option<SessionId>, now: nat): (r: Option<nat>)
    ensures r.Some? ==> r.value <= SESSION_TTL
    ensures r.Some? <==> Snapshot(cache, id, now).Some?
    ensures r.Some? && now < cache[id.value].insertedAt ==> r.value == 600_000
    ensures r.Some? && cache[id.value].insertedAt <= now ==>
      forall later: nat :: now <= later ==> (Snapshot(cache, id, later).Some? <==> later < now + r.value)
  {
    if id.None? || Lookup(cache, id.value, now).None? then None
    else
      var insertedAt := cache[id.value].insertedAt;
      var elapsed := if insertedAt <= now then now - insertedAt else 0;
      CheckedSub(SESSION_TTL, elapsed)
  }

  /** The states a transition may start from. */
  predicate Accepts(s: Option<SessionState>, transition: SessionTransition) {
    match transition
    case CreatePendingAuth(_, _) => s.None?
    case Authenticate(_) => s.Some? && s.value.PendingAuth?
    case BeginChangingPin => s.Some? && s.value.Active? && s.value.data.operation.None?
    case MarkHsmOperationPerformed =>
      s.Some? && s.value.Active? && s.value.data.operation.None? && !s.value.data.hasPerformedHsmOperation
    case End => s.Some? && s.value.Active?
  }

  /** The state each transition leaves, field by field; `End` leaves none. */
  predicate Leaves(s: Option<SessionState>, transition: SessionTransition, s': Option<SessionState>) {
    match transition
    case CreatePendingAuth(login, purpose) => s' == Some(PendingAuth(PendingAuthData(login, purpose)))
    case Authenticate(key) =>
      && s'.Some? && s'.value.Active? && s'.value.data.sessionKey == key
      && s.Some? && s.value.PendingAuth? && s'.value.data.purpose == s.value.pending.purpose
      && s'.value.data.operation == None && !s'.value.data.hasPerformedHsmOperation
    case BeginChangingPin =>
      && s.Some? && s.value.Active? && s'.Some? && s'.value.Active?
      && s'.value.data == s.value.data.(operation := Some(ChangingPin))
    case MarkHsmOperationPerformed =>
      && s.Some? && s.value.Active? && s'.Some? && s'.value.Active?
      && s'.value.data == s.value.data.(hasPerformedHsmOperation := true)
    case End => s' == None
  }

  /** Exactly the allowed transitions are accepted, and what is read afterwards, until the time to live is over,
      is the state the transition leaves. No other id is touched. */
  lemma TransitionedExactly(cache: CacheMap, id: SessionId, transition: SessionTransition, now: nat)
    ensures var result := Transitioned(cache, Some(id), Some(transition), now);
      && (result.Ok? <==> Accepts(Lookup(cache, id, now), transition))
      && (result.Err? ==> result.error == InvalidTransition)
      && (result.Ok? ==>
            && (forall later: nat :: now <= later < now + SESSION_TTL ==>
                  Leaves(Lookup(cache, id, now), transition, Lookup(result.value, id, later)))
            && (forall later: nat :: now + SESSION_TTL <= later ==> Lookup(result.value, id, later) == None)
            && result.value - {id} == cache - {id})
    ensures Transitioned(cache, None, Some(transition), now) == Err(SessionStateError.UnknownSession)
  {
  }

  /** An accepted transition always leaves a mark: a new state, or the entry gone. */
  lemma TransitionChanges(cache: CacheMap, id: SessionId, transition: SessionTransition, now: nat)
    requires Transitioned(cache, Some(id), Some(transition), now).Ok?
    ensures Transitioned(cache, Some(id), Some(transition), now).value != cache
  {
    var current := Lookup(cache, id, now);
    var changed := Transitioned(cache, Some(id), Some(transition), now).value;
    if current.Some? {
      TransitionLowersRank(current.value, transition);
      assert id in cache && (id in changed ==> changed[id].state != cache[id].state);
    } else {
      assert id in changed && (id in cache ==> changed[id].insertedAt != cache[id].insertedAt);
    }
  }

  class SessionStateMemoryCache {
    var cache: CacheMap

    constructor ()
      ensures cache == map[]
    {
      cache := map[];
    }

    method Get(id: SessionId, now: nat) returns (r: Option<SessionState>)
      ensures r == Lookup(cache, id, now)
    {
      if id in cache && now < cache[id].insertedAt + SESSION_TTL {
        return Some(cache[id].state);
      }
      return None;
    }

    method Insert(id: SessionId, state: SessionState, now: nat)
      modifies this
      ensures cache == old(cache)[id := CacheEntry(state, now)]
      ensures Lookup(cache, id, now) == Some(state)
    {
      cache := cache[id := CacheEntry(state, now)];
    }

    /** Commits the transition or leaves the cache as it was; no other id is ever touched. */
    method ApplyTransition(sessionId: Option<SessionId>, transition: Option<SessionTransition>, now: nat)
      returns (r: Result<(), SessionStateError>)
      modifies this
      ensures r.Err? ==> cache == old(cache)
      ensures transition.Some? && sessionId.Some? && r.Ok? ==>
        && Next(Lookup(old(cache), sessionId.value, now), transition.value).Ok?
        && Lookup(cache, sessionId.value, now) ==
             After(Next(Lookup(old(cache), sessionId.value, now), transition.value).value)
      ensures forall other :: sessionId != Some(other) ==> (other in cache <==> other in old(cache))
      ensures forall other :: other in cache && sessionId != Some(other) ==> cache[other] == old(cache)[other]
      ensures Transitioned(old(cache), sessionId, transition, now) == if r.Ok? then Ok(cache) else Err(r.error)
      ensures transition.None? ==> r == Ok(()) && cache == old(cache)
      ensures transition.Some? && sessionId.None? ==> r == Err(SessionStateError.UnknownSession)
      ensures transition.Some? && sessionId.Some? ==>
        && (r.Ok? <==> Accepts(Lookup(old(cache), sessionId.value, now), transition.value))
        && (r.Err? ==> r.error == InvalidTransition)
        && (r.Ok? ==>
              Leaves(Lookup(old(cache), sessionId.value, now), transition.value, Lookup(cache, sessionId.value, now)))
    {
      if transition.Some? && sessionId.Some? {
        TransitionedExactly(cache, sessionId.value, transition.value, now);
      }
      if transition.None? {
        return Ok(());
      }
      if sessionId.None? {
        return Err(SessionStateError.UnknownSession);
      }
      var id := sessionId.value;
      var current := Get(id, now);
      match Next(current, transition.value) {
        case Err(e) =>
          return Err(e);
        case Ok(Set(state)) =>
          Insert(id, state, now);
        case Ok(Invalidate) =>
          cache := cache - {id};
      }
      return Ok(());
    }

    method GetRemainingTtl(sessionId: Option<SessionId>, now: nat) returns (r: Option<nat>)
      ensures r == RemainingTtl(cache, sessionId, now)
    {
      if sessionId.None? {
        return None;
      }
      var entry := Get(sessionId.value, now);
      if entry.None? {
        return None;
      }
      var insertedAt := cache[sessionId.value].insertedAt;
      var elapsed := if insertedAt <= now then now - insertedAt else 0;
      return CheckedSub(SESSION_TTL, elapsed);
    }
  }
}
