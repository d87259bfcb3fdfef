/** The retry loop every command to the key-value store goes through. */
module RedisRetry {
  import opened Wrappers

  datatype ErrorKind = ReadOnly | MasterDown | OtherKind

  datatype RedisError = RedisError(kind: ErrorKind, ioError: bool, connectionDropped: bool, timeout: bool)

  predicate IsFailoverError(e: RedisError) {
    e.kind.ReadOnly? || e.kind.MasterDown?
  }

  predicate IsRetryableIo(e: RedisError) {
    e.ioError || e.connectionDropped || e.timeout
  }

  type Reply<+T> = Result<T, RedisError>

  const MAX_ATTEMPTS: nat := 3

  /** After these replies there is another attempt: none was made yet, or the last one failed in a way worth
      retrying and attempts are left. */
  predicate GoesOn<T>(history: seq<Reply<T>>) {
    history == [] || (|history| < MAX_ATTEMPTS && WorthRetrying(history[|history| - 1]))
  }

  predicate WorthRetrying<T>(reply: Reply<T>) {
    reply.Err? && (IsFailoverError(reply.error) || IsRetryableIo(reply.error))
  }

  predicate FailedOver<T>(reply: Reply<T>) {
    reply.Err? && IsFailoverError(reply.error)
  }

  /** A complete call: every attempt but the last was followed by another, the last was not. */
  predicate Complete<T>(history: seq<Reply<T>>) {
    && |history| >= 1
    && (forall i :: 0 <= i < |history| ==> GoesOn(history[..i]))
    && !GoesOn(history)
  }

  /** A complete call in plain terms: one to three attempts, all but the last worth retrying, and the last
      not, unless it was the third. */
  lemma CompleteExactly<T>(history: seq<Reply<T>>)
    ensures Complete(history) <==>
              (&& 1 <= |history| <= 3
               && (forall i :: 0 <= i < |history| - 1 ==> WorthRetrying(history[i]))
               && (|history| == 3 || !WorthRetrying(history[|history| - 1])))
  {
    forall i | 0 < i < |history|
      ensures GoesOn(history[..i]) <==> i < MAX_ATTEMPTS && WorthRetrying(history[i - 1])
    {
      assert history[..i][i - 1] == history[i - 1];
    }
    assert |history| > MAX_ATTEMPTS ==> !GoesOn(history[..MAX_ATTEMPTS]);
    if Complete(history) {
      forall i | 0 <= i < |history| - 1 ensures WorthRetrying(history[i]) {
        assert GoesOn(history[..i + 1]);
      }
    }
  }

  /** Worth retrying are a demoted replica, a master that is down, and any connection-class error; no other. */
  lemma WorthRetryingExactly<T>(e: RedisError)
    ensures e.kind == ReadOnly || e.kind == MasterDown ==> FailedOver<T>(Err(e)) && WorthRetrying<T>(Err(e))
    ensures e.kind == OtherKind ==> !FailedOver<T>(Err(e))
    ensures e.kind == OtherKind ==> (WorthRetrying<T>(Err(e)) <==> e.ioError || e.connectionDropped || e.timeout)
  {
  }

  /** A connection manager is known by a number. `configured` is false where there is nothing to resolve
      the primary's address with. */
  class SharedConnection {
    var current: nat
    const configured: bool

    constructor (manager: nat, configured: bool)
      ensures current == manager && this.configured == configured
    {
      current := manager;
      this.configured := configured;
    }

    /** A failed lookup keeps the previous connection. */
    method Reresolve(built: Option<nat>)
      modifies this
      ensures current == if configured && built.Some? then built.value else old(current)
    {
      if !configured {
        return;
      }
      match built {
        case Some(manager) => current := manager;
        case None =>
      }
    }
  }

  function Resolved(configured: bool, built: Option<nat>, current: nat): nat {
    if configured && built.Some? then built.value else current
  }

  /** The reply is the call's, through some connection. */
  ghost predicate IsCall<T(!new)>(call: (nat, nat) -> Reply<T>, n: nat, reply: Reply<T>) {
    exists manager: nat :: reply == call(n, manager)
  }

  /** Calls `call(n, manager)` for n = 0, 1, ... at most three times. Whenever a third call is made, the
      primary was re-resolved exactly once before it and 150 ms were waited in all, whatever the order of
      failover and transient errors. */
  method WithRedisRetry<T(!new)>(shared: SharedConnection, call: (nat, nat) -> Reply<T>, built: Option<nat>)
    returns (result: Reply<T>, history: seq<Reply<T>>, reresolves: nat, pausedMs: nat)
    modifies shared
    ensures Complete(history)
    ensures 1 <= |history| <= 3 && result == history[|history| - 1]
    ensures var before := old(shared.current);
            var after := if shared.configured && built.Some? then built.value else before;
      && history[0] == call(0, before)
      && (|history| > 1 ==>
            history[1] ==
              call(1, if history[0].Err? && history[0].error.kind in {ReadOnly, MasterDown} then after else before))
      && (|history| > 2 ==> history[2] == call(2, after))
      && shared.current == if reresolves == 0 then before else after
    ensures forall n :: 0 <= n < |history| ==> IsCall(call, n, history[n])
    ensures |history| == 1 ==> reresolves == 0 && pausedMs == 0
    ensures |history| == 2 ==>
              && history[0].Err?
              && (reresolves, pausedMs) == if history[0].error.kind in {ReadOnly, MasterDown} then (1, 100) else (0, 50)
    ensures |history| == 3 ==> reresolves == 1 && pausedMs == 150
  {
    var attempts := 0;
    var reresolved := false;
    history, reresolves, pausedMs := [], 0, 0;
    ghost var before, after := shared.current, Resolved(shared.configured, built, shared.current);
    while true
      invariant attempts == |history| < MAX_ATTEMPTS
      invariant reresolved <==> reresolves == 1
      invariant reresolves <= 1
      invariant forall n :: 0 <= n < attempts ==> IsCall(call, n, history[n])
      invariant forall i :: 0 <= i <= attempts ==> GoesOn(history[..i])
      invariant shared.current == if reresolves == 0 then before else after
      invariant attempts == 0 ==> reresolves == 0 && pausedMs == 0
      invariant attempts > 0 ==> history[0] == call(0, before) && history[0].Err?
      invariant attempts == 1 ==>
                  (reresolves, pausedMs) == if FailedOver(history[0]) then (1, 100) else (0, 50)
      invariant attempts == 2 ==> reresolves == 1 && pausedMs == 150
      invariant attempts == 2 ==> history[1] == call(1, if FailedOver(history[0]) then after else before)
      decreases MAX_ATTEMPTS - attempts
    {
      attempts := attempts + 1;
      result := call(attempts - 1, shared.current);
      ghost var earlier := history;
      history := history + [result];
      assert forall i :: 0 <= i <= |earlier| ==> history[..i] == earlier[..i];
      if result.Ok? || attempts >= MAX_ATTEMPTS {
        return;
      }
      var failover, transient := IsFailoverError(result.error), IsRetryableIo(result.error);
      if !failover && !transient {
        return;
      }
      if !reresolved && (failover || attempts >= 2) {
        shared.Reresolve(built);
        reresolved := true;
        reresolves := reresolves + 1;
        pausedMs := pausedMs + 100;
      } else {
        pausedMs := pausedMs + 50;
      }
      assert history[..attempts] == history;
    }
  }
}
