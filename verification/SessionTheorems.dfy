/** What every run of the fleet guarantees about sessions. */
module SessionTheorems {
  import opened Wrappers
  import opened Protocol
  import opened Sessions
  import opened Fleet

  datatype Kind = Creating | Authenticating | Marking | Beginning | Ending

  function KindOf(t: SessionTransition): Kind {
    match t
    case CreatePendingAuth(_, _) => Creating
    case Authenticate(_) => Authenticating
    case MarkHsmOperationPerformed => Marking
    case BeginChangingPin => Beginning
    case End => Ending
  }

  /** The rank a life has right after a commit of the kind. */
  function Landing(k: Kind): nat {
    match k
    case Creating => 4
    case Authenticating => 3
    case Marking => 2
    case Beginning => 1
    case Ending => 0
  }

  predicate Commits(e: Event, id: SessionId, k: Kind) {
    CommitsOn(e, id) && KindOf(e.commit.value.transition) == k
  }

  function CommitCount(h: seq<Event>, id: SessionId, k: Kind): nat {
    if h == [] then 0
    else CommitCount(h[..|h| - 1], id, k) + if Commits(h[|h| - 1], id, k) then 1 else 0
  }

  /** The client got a success for an operation on the session. */
  predicate Answers(e: Event, id: SessionId, op: OperationId) {
    e.Handled? && e.success && e.op == Some(op) && e.sessionId == Some(id)
  }

  predicate AnswersHsm(e: Event, id: SessionId) {
    e.Handled? && e.op.Some? && e.op.value.HsmMutating() && Answers(e, id, e.op.value)
  }

  predicate AnswersInSession(e: Event, id: SessionId) {
    e.Handled? && e.op.Some? && e.op.value.EncryptOption().Session? && Answers(e, id, e.op.value)
  }

  function HsmAnswers(h: seq<Event>, id: SessionId): nat {
    if h == [] then 0
    else HsmAnswers(h[..|h| - 1], id) + if AnswersHsm(h[|h| - 1], id) then 1 else 0
  }

  // === One event ===

  /** A commit lands on its kind's rank, strictly below where the life was; nothing else moves the rank. */
  lemma RankDrops(h: seq<Event>, e: Event, id: SessionId)
    requires Legal(h, e)
    ensures !CommitsOn(e, id) ==> LifeOf(h + [e], id) == LifeOf(h, id)
    ensures CommitsOn(e, id) ==>
      && Rank(LifeOf(h + [e], id)) == Landing(KindOf(e.commit.value.transition)) < Rank(LifeOf(h, id))
      && (KindOf(e.commit.value.transition) == Authenticating ==> Rank(LifeOf(h, id)) == 4)
      && (KindOf(e.commit.value.transition) == Marking ==> Rank(LifeOf(h, id)) == 3)
      && (KindOf(e.commit.value.transition) != Creating ==> Rank(LifeOf(h, id)) <= 4)
      && (KindOf(e.commit.value.transition) in {Marking, Beginning, Ending} ==> Rank(LifeOf(h, id)) <= 3)
  {
  }

  lemma Unsnoc(h: seq<Event>)
    requires h != []
    ensures h == h[..|h| - 1] + [h[|h| - 1]]
  {
  }

  // === Counting commits ===

  /** No id ever sees two commits of one kind, and none of a kind whose rank it has not yet reached. */
  lemma {:induction false} EachKindOnce(h: seq<Event>, id: SessionId, k: Kind)
    requires LegalHistory(h)
    ensures CommitCount(h, id, k) <= 1
    ensures Rank(LifeOf(h, id)) > Landing(k) ==> CommitCount(h, id, k) == 0
    ensures CommitCount(h, id, Authenticating) == 1 <==> Rank(LifeOf(h, id)) <= 3
    ensures CommitCount(h, id, Creating) == 1 <==> Rank(LifeOf(h, id)) <= 4
  {
    if h != [] {
      var before, e := h[..|h| - 1], h[|h| - 1];
      EachKindOnce(before, id, k);
      EachKindOnce(before, id, Authenticating);
      EachKindOnce(before, id, Creating);
      Unsnoc(h);
      RankDrops(before, e, id);
    }
  }

  lemma {:induction false} AnswersNeedMarks(h: seq<Event>, id: SessionId)
    requires LegalHistory(h)
    ensures HsmAnswers(h, id) <= CommitCount(h, id, Marking)
  {
    if h != [] {
      AnswersNeedMarks(h[..|h| - 1], id);
      assert Legal(h[..|h| - 1], h[|h| - 1]);
    }
  }

  /** In every run, each session id yields at most one successful sign, generate or delete response. */
  lemma AtMostOneHsmAnswer(steps: seq<Step>, id: SessionId)
    requires AllowedRun(steps)
    ensures HsmAnswers(Run(steps).history, id) <= 1
  {
    RunKeepsInvariant(steps);
    AnswersNeedMarks(Run(steps).history, id);
    EachKindOnce(Run(steps).history, id, Marking);
  }

  /** A session id is held by one worker only. */
  lemma OneHome(steps: seq<Step>, v: WorkerId, w: WorkerId, id: SessionId)
    requires AllowedRun(steps)
    requires id in WorkerOf(Run(steps), v).cache && id in WorkerOf(Run(steps), w).cache
    ensures v == w
  {
    var f := Run(steps);
    RunKeepsInvariant(steps);
    assert EntryAgrees(LifeOf(f.history, id), v, f.workers[v].cache[id]);
    assert EntryAgrees(LifeOf(f.history, id), w, f.workers[w].cache[id]);
  }

  // === Lifetime ===

  /** Every write but the first comes within one time to live of the one before, and there are at most four. */
  lemma {:induction false} WritesAreFew(h: seq<Event>, id: SessionId)
    requires LegalHistory(h)
    ensures var life := LifeOf(h, id);
      life.Born? ==>
        && 1 <= life.writes <= 4
        && (life.state.Some? ==> life.writes + Rank(life) <= 5)
        && life.wroteAt <= life.bornAt + (life.writes - 1) * SESSION_TTL
  {
    if h != [] {
      var before, e := h[..|h| - 1], h[|h| - 1];
      WritesAreFew(before, id);
      Unsnoc(h);
      RankDrops(before, e, id);
      LifeGrows(before, e, id);
    }
  }

  /** No id is readable 2400 seconds after its creation, on any worker of any run. */
  lemma LifetimeBound(steps: seq<Step>, w: WorkerId, id: SessionId, now: nat)
    requires AllowedRun(steps)
    requires Lookup(WorkerOf(Run(steps), w).cache, id, now).Some?
    ensures var life := LifeOf(Run(steps).history, id);
      && life.Born? && life.home == w
      && now < life.bornAt + 2_400_000
      && life.writes <= 4
  {
    var f := Run(steps);
    RunKeepsInvariant(steps);
    WritesAreFew(f.history, id);
    assert EntryAgrees(LifeOf(f.history, id), w, f.workers[w].cache[id]);
  }

  /** The bound is met but for the four milliseconds that the strict expiry comparison takes off: four writes,
      each in the last millisecond of the one before, keep an id readable that long. */
  lemma LifetimeIsTight(id: SessionId, key: Bytes)
    ensures var start := Transitioned(map[], Some(id), Some(CreatePendingAuth([], None)), 0);
      && start.Ok?
      && var authenticated := Transitioned(start.value, Some(id), Some(Authenticate(key)), 599_999);
         && authenticated.Ok?
         && var used := Transitioned(authenticated.value, Some(id), Some(MarkHsmOperationPerformed), 1_199_998);
            && used.Ok?
            && var changing := Transitioned(used.value, Some(id), Some(BeginChangingPin), 1_799_997);
               && changing.Ok?
               && Lookup(changing.value, id, 2_399_996).Some? && Lookup(changing.value, id, 2_399_997).None?
  {
  }

  // === Going back in time ===

  lemma {:induction false} LegalAt(h: seq<Event>, i: nat)
    requires LegalHistory(h) && i <= |h|
    ensures LegalHistory(h[..i])
    ensures i < |h| ==> Legal(h[..i], h[i]) && h[..i + 1] == h[..i] + [h[i]]
    decreases |h| - i
  {
    if i < |h| {
      LegalAt(h, i + 1);
      assert h[..i + 1][..i] == h[..i];
    } else {
      assert h[..i] == h;
    }
  }

  lemma {:induction false} RankFalls(h: seq<Event>, i: nat, j: nat, id: SessionId)
    requires LegalHistory(h) && i <= j <= |h|
    ensures Rank(LifeOf(h[..j], id)) <= Rank(LifeOf(h[..i], id))
    decreases j
  {
    if i < j {
      RankFalls(h, i, j - 1, id);
      LegalAt(h, j - 1);
      RankDrops(h[..j - 1], h[j - 1], id);
    }
  }

  /** An id whose life has ended is never readable again, and never answers in session again. */
  lemma EndedStaysEnded(h: seq<Event>, i: nat, j: nat, id: SessionId)
    requires LegalHistory(h) && i <= j < |h|
    requires LifeOf(h[..i], id).Born? && LifeOf(h[..i], id).state.None?
    ensures !AnswersInSession(h[j], id)
    ensures LifeOf(h[..j], id).Born? && LifeOf(h[..j], id).state.None?
  {
    RankFalls(h, i, j, id);
    LegalAt(h, j);
  }

  function PurposeOf(s: SessionState): Option<string> {
    match s
    case PendingAuth(pending) => pending.purpose
    case Active(data) => data.purpose
  }

  /** While a session is alive its purpose never changes, and once active nor does its key. */
  lemma {:induction false} SessionConstant(h: seq<Event>, i: nat, j: nat, id: SessionId)
    requires LegalHistory(h) && i <= j <= |h|
    requires LifeOf(h[..i], id).Born? && LifeOf(h[..i], id).state.Some?
    requires LifeOf(h[..j], id).Born? && LifeOf(h[..j], id).state.Some?
    ensures var s, s' := LifeOf(h[..i], id).state.value, LifeOf(h[..j], id).state.value;
      && PurposeOf(s') == PurposeOf(s)
      && (s.Active? ==> s'.Active? && s'.data.sessionKey == s.data.sessionKey)
      && LifeOf(h[..j], id).home == LifeOf(h[..i], id).home
      && LifeOf(h[..j], id).bornAt == LifeOf(h[..i], id).bornAt
    decreases j
  {
    if i < j {
      var before, e := h[..j - 1], h[j - 1];
      LegalAt(h, j - 1);
      RankFalls(h, i, j - 1, id);
      RankDrops(before, e, id);
      LifeGrows(before, e, id);
      SessionConstant(h, i, j - 1, id);
      if CommitsOn(e, id) {
        TransitionLowersRank(LifeOf(before, id).state.value, e.commit.value.transition);
      }
    }
  }

  // === PIN change ===

  /** A life at rank one got there by a committed start of a PIN change. */
  lemma {:induction false} StartedBefore(h: seq<Event>, id: SessionId) returns (i: nat)
    requires LegalHistory(h) && Rank(LifeOf(h, id)) == 1
    ensures i < |h| && Commits(h[i], id, Beginning)
  {
    var before, e := h[..|h| - 1], h[|h| - 1];
    Unsnoc(h);
    RankDrops(before, e, id);
    LifeGrows(before, e, id);
    if CommitsOn(e, id) {
      i := |h| - 1;
    } else {
      i := StartedBefore(before, id);
    }
  }

  /** Every successful PIN-change finish follows exactly one committed start on the same session, with no
      successful HSM operation in between and no successful session-class operation afterwards. */
  lemma PinChangeTrace(h: seq<Event>, j: nat, id: SessionId) returns (i: nat)
    requires LegalHistory(h) && j < |h|
    requires Answers(h[j], id, ChangePinFinish)
    ensures i < j && Commits(h[i], id, Beginning)
    ensures CommitCount(h, id, Beginning) == 1 && CommitCount(h, id, Ending) == 1
    ensures Commits(h[j], id, Ending)
    ensures forall k :: i <= k < j ==> !AnswersHsm(h[k], id)
    ensures forall k :: j < k < |h| ==> !AnswersInSession(h[k], id)
  {
    LegalAt(h, j);
    var life := LifeOf(h[..j], id);
    i := StartedBefore(h[..j], id);
    CountPositive(h, i, id, Beginning);
    CountPositive(h, j, id, Ending);
    EachKindOnce(h, id, Beginning);
    EachKindOnce(h, id, Ending);
    forall k | i <= k < j ensures !AnswersHsm(h[k], id) {
      LegalAt(h, k);
      if AnswersHsm(h[k], id) {
        RankDrops(h[..k], h[k], id);
        LegalAt(h, i);
        RankDrops(h[..i], h[i], id);
        if i < k { RankFalls(h, i + 1, k, id); }
      }
    }
    RankDrops(h[..j], h[j], id);
    LifeGrows(h[..j], h[j], id);
    forall k | j < k < |h| ensures !AnswersInSession(h[k], id) {
      EndedStaysEnded(h, j + 1, k, id);
    }
  }

  lemma {:induction false} CountPositive(h: seq<Event>, i: nat, id: SessionId, k: Kind)
    requires i < |h| && Commits(h[i], id, k)
    ensures CommitCount(h, id, k) >= 1
  {
    if i < |h| - 1 {
      CountPositive(h[..|h| - 1], i, id, k);
    }
  }

  /** The same, for every run of the fleet. */
  lemma PinChangeTraceInRuns(steps: seq<Step>, j: nat, id: SessionId) returns (i: nat)
    requires AllowedRun(steps) && j < |Run(steps).history|
    requires Answers(Run(steps).history[j], id, ChangePinFinish)
    ensures var h := Run(steps).history;
      && i < j && Commits(h[i], id, Beginning) && CommitCount(h, id, Beginning) == 1
      && (forall k :: i <= k < j ==> !AnswersHsm(h[k], id))
      && (forall k :: j < k < |h| ==> !AnswersInSession(h[k], id))
  {
    RunKeepsInvariant(steps);
    i := PinChangeTrace(Run(steps).history, j, id);
  }

  // === The ledger ===

  function Total(h: seq<Event>, k: Kind): nat {
    if h == [] then 0
    else Total(h[..|h| - 1], k) + if IsKind(h[|h| - 1], k) then 1 else 0
  }

  predicate IsKind(e: Event, k: Kind) {
    e.Handled? && e.commit.Some? && KindOf(e.commit.value.transition) == k
  }

  function TotalHsmAnswers(h: seq<Event>): nat {
    if h == [] then 0
    else TotalHsmAnswers(h[..|h| - 1])
         + if h[|h| - 1].Handled? && h[|h| - 1].success && h[|h| - 1].op.Some? && h[|h| - 1].op.value.HsmMutating()
         then 1 else 0
  }

  function IdsWith(h: seq<Event>, k: Kind): set<SessionId> {
    if h == [] then {}
    else IdsWith(h[..|h| - 1], k) + if IsKind(h[|h| - 1], k) then {h[|h| - 1].commit.value.id} else {}
  }

  lemma {:induction false} IdsAreCounted(h: seq<Event>, k: Kind, id: SessionId)
    ensures id in IdsWith(h, k) <==> CommitCount(h, id, k) >= 1
  {
    if h != [] {
      IdsAreCounted(h[..|h| - 1], k, id);
    }
  }

  lemma {:induction false} TotalCountsIds(h: seq<Event>, k: Kind)
    requires LegalHistory(h)
    ensures Total(h, k) == |IdsWith(h, k)|
  {
    if h != [] {
      var before, e := h[..|h| - 1], h[|h| - 1];
      TotalCountsIds(before, k);
      if IsKind(e, k) {
        var id := e.commit.value.id;
        IdsAreCounted(before, k, id);
        EachKindOnce(h, id, k);
      }
    }
  }

  lemma SubsetSmaller<T>(a: set<T>, b: set<T>)
    requires a <= b
    ensures |a| <= |b|
  {
    assert b == a + (b - a);
  }

  lemma {:induction false} AnswersAreMarks(h: seq<Event>)
    requires LegalHistory(h)
    ensures TotalHsmAnswers(h) <= Total(h, Marking)
  {
    if h != [] {
      AnswersAreMarks(h[..|h| - 1]);
      assert Legal(h[..|h| - 1], h[|h| - 1]);
    }
  }

  /** Successful HSM-mutating responses, authentications and started logins, each bounded by the next. */
  lemma Ledger(h: seq<Event>)
    requires LegalHistory(h)
    ensures TotalHsmAnswers(h) <= Total(h, Marking) <= Total(h, Authenticating) <= Total(h, Creating)
  {
    AnswersAreMarks(h);
    TotalCountsIds(h, Marking);
    TotalCountsIds(h, Authenticating);
    TotalCountsIds(h, Creating);
    forall id | id in IdsWith(h, Marking) ensures id in IdsWith(h, Authenticating) {
      IdsAreCounted(h, Marking, id);
      IdsAreCounted(h, Authenticating, id);
      EachKindOnce(h, id, Marking);
    }
    forall id | id in IdsWith(h, Authenticating) ensures id in IdsWith(h, Creating) {
      IdsAreCounted(h, Authenticating, id);
      IdsAreCounted(h, Creating, id);
      EachKindOnce(h, id, Authenticating);
    }
    SubsetSmaller(IdsWith(h, Marking), IdsWith(h, Authenticating));
    SubsetSmaller(IdsWith(h, Authenticating), IdsWith(h, Creating));
  }

  lemma LedgerInRuns(steps: seq<Step>)
    requires AllowedRun(steps)
    ensures var h := Run(steps).history;
      TotalHsmAnswers(h) <= Total(h, Authenticating) <= Total(h, Creating)
  {
    RunKeepsInvariant(steps);
    Ledger(Run(steps).history);
  }
}
