/** Single-use nonces in a shared key-value store: SET with NX and EX, through the retry loop. */
module NonceStore {
  import opened Wrappers
  import opened RedisRetry

  // === The store ===

  /** One SET of a key that must not exist, to expire `ttl` seconds later, as the store executed it.
      `caller` tells the requests on whose behalf it came apart. */
  datatype SetOp = SetOp(key: string, ttl: nat, at: nat, caller: nat)

  predicate Free(expiries: map<string, nat>, key: string, now: nat) {
    key in expiries ==> expiries[key] <= now
  }

  /** When each key expires after these operations: a SET takes effect only on a key that is free. */
  function Expiries(log: seq<SetOp>): map<string, nat> {
    if log == [] then map[]
    else
      var before, last := Expiries(log[..|log| - 1]), log[|log| - 1];
      if Free(before, last.key, last.at) then before[last.key := last.at + last.ttl] else before
  }

  /** The operation set its key; otherwise the key already existed. */
  predicate Won(log: seq<SetOp>, i: nat)
    requires i < |log|
  {
    Free(Expiries(log[..i]), log[i].key, log[i].at)
  }

  lemma ExpiriesAt(log: seq<SetOp>, i: nat)
    requires i < |log|
    ensures Expiries(log[..i + 1]) ==
            if Won(log, i) then Expiries(log[..i])[log[i].key := log[i].at + log[i].ttl] else Expiries(log[..i])
  {
    assert log[..i + 1][..i] == log[..i];
  }

  /** A key's expiry never moves back. */
  lemma {:induction false} ExpiryGrows(log: seq<SetOp>, key: string, i: nat, j: nat)
    requires i <= j <= |log| && key in Expiries(log[..i])
    ensures key in Expiries(log[..j]) && Expiries(log[..j])[key] >= Expiries(log[..i])[key]
  {
    if i < j {
      ExpiryGrows(log, key, i, j - 1);
      ExpiriesAt(log, j - 1);
    }
  }

  /** Two operations that both set the same key are a full time to live apart. */
  lemma WinsAreApart(log: seq<SetOp>, i: nat, j: nat)
    requires i < j < |log| && log[i].key == log[j].key && Won(log, i) && Won(log, j)
    ensures log[i].at + log[i].ttl <= log[j].at
  {
    ExpiriesAt(log, i);
    ExpiryGrows(log, log[i].key, i + 1, j);
  }

  /** Operation `i` set the key and has not expired. */
  predicate Holds(log: seq<SetOp>, i: nat, key: string, now: nat) {
    i < |log| && log[i].key == key && Won(log, i) && now < log[i].at + log[i].ttl
  }

  /** A key exists exactly because some operation set it and has not expired. */
  lemma HeldExactly(log: seq<SetOp>, key: string, now: nat)
    ensures !Free(Expiries(log), key, now) <==> exists i: nat :: Holds(log, i, key, now)
  {
    assert log[..|log|] == log;
    if !Free(Expiries(log), key, now) {
      var i := SetterOf(log, key, |log|);
      assert Holds(log, i, key, now);
    }
    forall i: nat | Holds(log, i, key, now) ensures !Free(Expiries(log), key, now) {
      ExpiriesAt(log, i);
      ExpiryGrows(log, key, i + 1, |log|);
    }
  }

  /** At most one operation holds a key, as long as none comes from the future. */
  lemma OneHolder(log: seq<SetOp>, i: nat, j: nat, key: string, now: nat)
    requires Holds(log, i, key, now) && Holds(log, j, key, now)
    requires forall k :: 0 <= k < |log| ==> log[k].at <= now
    ensures i == j
  {
    if i < j {
      WinsAreApart(log, i, j);
    } else if j < i {
      WinsAreApart(log, j, i);
    }
  }

  lemma {:induction false} SetterOf(log: seq<SetOp>, key: string, j: nat) returns (i: nat)
    requires j <= |log| && key in Expiries(log[..j])
    ensures i < j && log[i].key == key && Won(log, i) && Expiries(log[..j])[key] == log[i].at + log[i].ttl
  {
    ExpiriesAt(log, j - 1);
    if Won(log, j - 1) && log[j - 1].key == key {
      i := j - 1;
    } else {
      i := SetterOf(log, key, j - 1);
    }
  }

  /** Later operations do not change who won. */
  lemma WonIsSettled(log: seq<SetOp>, more: seq<SetOp>, i: nat)
    requires i < |log|
    ensures Won(log + more, i) == Won(log, i)
  {
    assert (log + more)[..i] == log[..i];
  }

  // === The key ===

  const KEY_PREFIX: string := "nonce:"

  function NonceKey(clientId: string, nonce: string): string {
    KEY_PREFIX + clientId + ":" + nonce
  }

  lemma KeyTail(clientId: string, nonce: string)
    ensures NonceKey(clientId, nonce)[|KEY_PREFIX|..] == clientId + ":" + nonce
  {
  }

  /** Two pairs share a key exactly when they are equal, or the longer client id continues the shorter one
      with a colon and takes up the front of its nonce. */
  lemma KeysCollideExactly(c: string, n: string, d: string, m: string)
    requires |c| <= |d|
    ensures NonceKey(c, n) == NonceKey(d, m) <==>
              (c == d && n == m) || (exists p :: d == c + ":" + p && n == p + ":" + m)
  {
    KeyTail(c, n);
    KeyTail(d, m);
    if NonceKey(c, n) == NonceKey(d, m) {
      assert c + ":" + n == d + ":" + m;
      Overlap(c, n, d, m);
    }
    forall p | d == c + ":" + p && n == p + ":" + m ensures NonceKey(c, n) == NonceKey(d, m) {
      assert c + ":" + (p + ":" + m) == (c + ":" + p) + ":" + m;
      assert KEY_PREFIX + (c + ":" + n) == NonceKey(c, n);
      assert KEY_PREFIX + (d + ":" + m) == NonceKey(d, m);
    }
  }

  lemma Overlap(c: string, n: string, d: string, m: string)
    requires |c| <= |d| && c + ":" + n == d + ":" + m
    ensures (c == d && n == m) || (exists p :: d == c + ":" + p && n == p + ":" + m)
  {
    var text := c + ":" + n;
    assert text[..|c|] == c && text[..|d|] == d;
    assert text[|c| + 1..] == n && text[|d| + 1..] == m;
    if |c| < |d| {
      var p := d[|c| + 1..];
      assert d[..|c|] == c && d[|c|] == text[|c|] == ':';
      assert d == c + ":" + p;
      assert n == text[|c| + 1..|d|] + text[|d|..];
      assert text[|c| + 1..|d|] == p;
      assert text[|d|..] == ":" + m;
    }
  }

  /** A nonce key is never the key of a client's stored state, unless the client id itself starts like one. */
  lemma NotAStateKey(clientId: string, nonce: string, other: string)
    requires NonceKey(clientId, nonce) == other
    ensures |other| >= 6 && other[..6] == "nonce:" && other[6..] == clientId + ":" + nonce
  {
    KeyTail(clientId, nonce);
  }

  lemma NoContinuation(c: string, d: string)
    requires ':' !in d
    ensures forall p :: d != c + ":" + p
  {
  }

  /** Keys are injective on client ids without a colon. */
  lemma KeysInjective(c: string, n: string, d: string, m: string)
    requires ':' !in c && ':' !in d
    requires NonceKey(c, n) == NonceKey(d, m)
    ensures c == d && n == m
  {
    NoContinuation(c, d);
    NoContinuation(d, c);
    if |c| <= |d| {
      KeysCollideExactly(c, n, d, m);
    } else {
      KeysCollideExactly(d, m, c, n);
    }
  }

  /** With a colon in a client id they are not. */
  lemma KeysCollide()
    ensures NonceKey("a:b", "c") == NonceKey("a", "b:c")
  {
  }

  // === Storing a nonce ===

  /** What became of one attempt: it ran and was answered, it ran and the answer was lost, or it never ran. */
  datatype Fate = Answered | AnswerLost(e: RedisError) | NotRun(e: RedisError)

  /** One attempt: other callers' operations before it, the store's clock, and its fate. */
  datatype Attempt = Attempt(others: seq<SetOp>, at: nat, fate: Fate)

  function AfterAttempt(log: seq<SetOp>, op: SetOp, a: Attempt): seq<SetOp> {
    log + a.others + if a.fate.NotRun? then [] else [op.(at := a.at)]
  }

  /** `Ok(true)` stands for the store's OK, `Ok(false)` for its nil. */
  function ReplyTo(log: seq<SetOp>, op: SetOp, a: Attempt): Reply<bool> {
    match a.fate
    case Answered => Ok(Free(Expiries(log + a.others), op.key, a.at))
    case AnswerLost(e) => Err(e)
    case NotRun(e) => Err(e)
  }

  function ReplyAt(log: seq<SetOp>, op: SetOp, attempts: nat -> Attempt, n: nat): Reply<bool> {
    ReplyTo(LogAfter(log, op, attempts, n), op, attempts(n))
  }

  /** The store's log after `n` attempts. */
  function LogAfter(log: seq<SetOp>, op: SetOp, attempts: nat -> Attempt, n: nat): seq<SetOp> {
    if n == 0 then log else AfterAttempt(LogAfter(log, op, attempts, n - 1), op, attempts(n - 1))
  }

  /** An answered attempt is the log's last operation, and the answer says whether it won. */
  lemma AnswerTellsWinner(log: seq<SetOp>, op: SetOp, a: Attempt)
    requires ReplyTo(log, op, a).Ok?
    ensures var log' := AfterAttempt(log, op, a);
      |log'| > 0 && log'[|log'| - 1] == op.(at := a.at) && (ReplyTo(log, op, a).value <==> Won(log', |log'| - 1))
  {
  }

  lemma LastReplyTells(log: seq<SetOp>, op: SetOp, attempts: nat -> Attempt, n: nat)
    requires n > 0
    ensures var log', reply := LogAfter(log, op, attempts, n), ReplyAt(log, op, attempts, n - 1);
      reply.Ok? ==>
        |log'| > 0 && log'[|log'| - 1] == op.(at := attempts(n - 1).at) && (reply.value <==> Won(log', |log'| - 1))
  {
  }

  // === Conflicts with oneself ===

  predicate Ran(attempts: nat -> Attempt, k: nat) {
    !attempts(k).fate.NotRun?
  }

  /** The store as attempt `k` finds it. */
  function FoundBy(log: seq<SetOp>, op: SetOp, attempts: nat -> Attempt, k: nat): seq<SetOp> {
    LogAfter(log, op, attempts, k) + attempts(k).others
  }

  /** Attempt `k` ran and set the key. */
  predicate RanAndWon(log: seq<SetOp>, op: SetOp, attempts: nat -> Attempt, k: nat) {
    Ran(attempts, k) && Free(Expiries(FoundBy(log, op, attempts, k)), op.key, attempts(k).at)
  }

  /** An attempt that ran is the operation right after what it found, in every later log. */
  lemma {:induction false} OwnOperation(log: seq<SetOp>, op: SetOp, attempts: nat -> Attempt, k: nat, n: nat)
    requires k < n && Ran(attempts, k)
    ensures var found, later := FoundBy(log, op, attempts, k), LogAfter(log, op, attempts, n);
      |found| < |later| && later[..|found|] == found && later[|found|] == op.(at := attempts(k).at)
  {
    if k < n - 1 {
      OwnOperation(log, op, attempts, k, n - 1);
    }
  }

  predicate Foreign(ops: seq<SetOp>, caller: nat) {
    forall i :: 0 <= i < |ops| ==> ops[i].caller != caller
  }

  /** And a caller's operations all come from its attempts. */
  lemma {:induction false} OperationOf(log: seq<SetOp>, op: SetOp, attempts: nat -> Attempt, n: nat, i: nat)
    requires i < |LogAfter(log, op, attempts, n)| && LogAfter(log, op, attempts, n)[i].caller == op.caller
    requires Foreign(log, op.caller)
    requires forall k: nat :: k <= n ==> Foreign(attempts(k).others, op.caller)
    ensures exists k: nat :: k < n && Ran(attempts, k) && i == |FoundBy(log, op, attempts, k)|
  {
    if n > 0 {
      var before, found := LogAfter(log, op, attempts, n - 1), FoundBy(log, op, attempts, n - 1);
      if i < |before| {
        assert LogAfter(log, op, attempts, n)[i] == before[i];
        OperationOf(log, op, attempts, n - 1, i);
      } else {
        LastOperation(before, op, attempts(n - 1), i);
        assert Ran(attempts, n - 1) && i == |found|;
      }
    }
  }

  lemma LastOperation(log: seq<SetOp>, op: SetOp, a: Attempt, i: nat)
    requires Foreign(a.others, op.caller)
    requires |log| <= i < |AfterAttempt(log, op, a)| && AfterAttempt(log, op, a)[i].caller == op.caller
    ensures !a.fate.NotRun? && i == |log + a.others|
  {
  }

  /** An answered attempt is told that the key exists exactly when some operation holds it. */
  lemma ConflictExactly(log: seq<SetOp>, op: SetOp, attempts: nat -> Attempt, n: nat)
    requires attempts(n).fate.Answered?
    ensures ReplyAt(log, op, attempts, n) == Ok(false) <==>
              exists i: nat :: Holds(FoundBy(log, op, attempts, n), i, op.key, attempts(n).at)
  {
    HeldExactly(FoundBy(log, op, attempts, n), op.key, attempts(n).at);
  }

  /** And the holder is the caller's own, whatever other callers do in between, exactly when an earlier attempt
      ran, set the key, and has not expired. Its answer was lost, or there would have been no further attempt. */
  lemma SelfConflictExactly(log: seq<SetOp>, op: SetOp, attempts: nat -> Attempt, n: nat)
    requires attempts(n).fate.Answered?
    requires Foreign(log, op.caller)
    requires forall k: nat :: k <= n ==> Foreign(attempts(k).others, op.caller)
    ensures var found, now := FoundBy(log, op, attempts, n), attempts(n).at;
            (exists i: nat :: Holds(found, i, op.key, now) && found[i].caller == op.caller) <==>
            (exists k: nat :: k < n && RanAndWon(log, op, attempts, k) && now < attempts(k).at + op.ttl)
  {
    var found, now := FoundBy(log, op, attempts, n), attempts(n).at;
    var later := LogAfter(log, op, attempts, n);
    forall i: nat | Holds(found, i, op.key, now) && found[i].caller == op.caller
      ensures exists k: nat :: k < n && RanAndWon(log, op, attempts, k) && now < attempts(k).at + op.ttl
    {
      OperationOf(log, op, attempts, n, i);
      var k: nat :| k < n && Ran(attempts, k) && i == |FoundBy(log, op, attempts, k)|;
      OwnOperation(log, op, attempts, k, n);
      assert found[..i] == later[..i];
      assert RanAndWon(log, op, attempts, k);
    }
    forall k: nat | k < n && RanAndWon(log, op, attempts, k) && now < attempts(k).at + op.ttl
      ensures exists i: nat :: Holds(found, i, op.key, now) && found[i].caller == op.caller
    {
      OwnOperation(log, op, attempts, k, n);
      var i := |FoundBy(log, op, attempts, k)|;
      assert found[..i] == later[..i];
      assert Holds(found, i, op.key, now);
    }
  }

  function ExpiryOf(log: seq<SetOp>, key: string): Option<nat> {
    if key in Expiries(log) then Some(Expiries(log)[key]) else None
  }

  lemma {:induction false} OthersLeaveTheKey(log: seq<SetOp>, others: seq<SetOp>, key: string)
    requires forall o :: o in others ==> o.key != key
    ensures ExpiryOf(log + others, key) == ExpiryOf(log, key)
  {
    if others == [] {
      assert log + others == log;
    } else {
      var front, last := others[..|others| - 1], others[|others| - 1];
      assert last in others && (log + others)[..|log + others| - 1] == log + front;
      OthersLeaveTheKey(log, front, key);
    }
  }

  /** Nobody else touches the key around the attempt, which falls into the window that starts at `start`. */
  predicate Undisturbed(op: SetOp, start: nat, a: Attempt) {
    && (forall o :: o in a.others ==> o.key != op.key)
    && start <= a.at < start + op.ttl
  }

  /** The first of `n` attempts that ran. */
  function FirstRun(attempts: nat -> Attempt, n: nat): (r: Option<nat>)
    ensures r.Some? ==> r.value < n && Ran(attempts, r.value)
  {
    if n == 0 then None
    else if FirstRun(attempts, n - 1).Some? then FirstRun(attempts, n - 1)
    else if Ran(attempts, n - 1) then Some(n - 1)
    else None
  }

  lemma {:induction false} FirstRunIsAny(attempts: nat -> Attempt, n: nat, k: nat)
    requires k < n && Ran(attempts, k)
    ensures FirstRun(attempts, n).Some?
  {
    if k < n - 1 {
      FirstRunIsAny(attempts, n - 1, k);
    }
  }

  lemma {:induction false} AloneExpiry(log: seq<SetOp>, op: SetOp, attempts: nat -> Attempt, start: nat, n: nat)
    requires Free(Expiries(log), op.key, start)
    requires forall k: nat :: k < n ==> Undisturbed(op, start, attempts(k))
    ensures ExpiryOf(LogAfter(log, op, attempts, n), op.key) ==
            match FirstRun(attempts, n)
            case None => ExpiryOf(log, op.key)
            case Some(k) => Some(attempts(k).at + op.ttl)
  {
    if n > 0 {
      AloneExpiry(log, op, attempts, start, n - 1);
      var first := FirstRun(attempts, n - 1);
      assert Undisturbed(op, start, attempts(n - 1));
      assert first.Some? ==> Undisturbed(op, start, attempts(first.value));
      AloneStep(LogAfter(log, op, attempts, n - 1), op, attempts(n - 1), ExpiryOf(log, op.key),
                if first.Some? then Some(attempts(first.value).at) else None);
    }
  }

  /** One attempt on a key that `base` has freed and that was set at `first`, if it was. */
  lemma AloneStep(log: seq<SetOp>, op: SetOp, a: Attempt, base: Option<nat>, first: Option<nat>)
    requires forall o :: o in a.others ==> o.key != op.key
    requires ExpiryOf(log, op.key) == if first.Some? then Some(first.value + op.ttl) else base
    requires base.Some? ==> base.value <= a.at
    requires first.Some? ==> a.at < first.value + op.ttl
    ensures ExpiryOf(AfterAttempt(log, op, a), op.key) ==
            if first.Some? then Some(first.value + op.ttl) else if a.fate.NotRun? then base else Some(a.at + op.ttl)
  {
    OthersLeaveTheKey(log, a.others, op.key);
    var found, after := log + a.others, AfterAttempt(log, op, a);
    if a.fate.NotRun? {
      assert after == found;
    } else {
      assert after[..|after| - 1] == found;
    }
  }

  /** A request alone on its key, with all its attempts in one time to live, is told that its nonce was used
      exactly when an earlier attempt of its own ran. */
  lemma AloneConflictExactly(log: seq<SetOp>, op: SetOp, attempts: nat -> Attempt, start: nat, n: nat)
    requires attempts(n).fate.Answered? && Free(Expiries(log), op.key, start)
    requires forall k: nat :: k <= n ==> Undisturbed(op, start, attempts(k))
    ensures ReplyAt(log, op, attempts, n) == Ok(false) <==> exists k: nat :: k < n && Ran(attempts, k)
  {
    AloneExpiry(log, op, attempts, start, n);
    OthersLeaveTheKey(LogAfter(log, op, attempts, n), attempts(n).others, op.key);
    forall k: nat | k < n && Ran(attempts, k) ensures FirstRun(attempts, n).Some? {
      FirstRunIsAny(attempts, n, k);
    }
  }

  // === The adapter ===

  class NonceRedisAdapter {
    const conn: SharedConnection
    var log: seq<SetOp>

    constructor (conn: SharedConnection)
      ensures this.conn == conn && log == []
    {
      this.conn := conn;
      log := [];
    }

    /** True exactly when the last attempt was answered and its operation, the last in the store's log, set
        the key. An operation of an earlier attempt whose answer was lost stays in the log. */
    method TryStore(clientId: string, nonce: string, ttlSeconds: nat, caller: nat, attempts: nat -> Attempt,
                    built: Option<nat>)
      returns (result: Result<bool, RedisError>, history: seq<Reply<bool>>)
      modifies this, conn
      ensures Complete(history) && result == history[|history| - 1]
      ensures var op := SetOp(NonceKey(clientId, nonce), ttlSeconds, 0, caller);
        && log == LogAfter(old(log), op, attempts, |history|)
        && (forall n :: 0 <= n < |history| ==> history[n] == ReplyAt(old(log), op, attempts, n))
        && (result.Ok? ==>
              && |log| > 0 && log[|log| - 1] == op.(at := attempts(|history| - 1).at)
              && (result.value <==> Won(log, |log| - 1)))
    {
      var op := SetOp(NonceKey(clientId, nonce), ttlSeconds, 0, caller);
      var before := log;
      var call := (n: nat, manager: nat) => ReplyAt(before, op, attempts, n);
      var reply, replies, _, _ := WithRedisRetry(conn, call, built);
      log := LogAfter(before, op, attempts, |replies|);
      forall n | 0 <= n < |replies| ensures replies[n] == ReplyAt(before, op, attempts, n) {
        assert IsCall(call, n, replies[n]);
      }
      LastReplyTells(before, op, attempts, |replies|);
      return reply, replies;
    }
  }
}
