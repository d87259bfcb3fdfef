/** What successful operations do to the device state, along any chain of issued states. */
module StateChains {
  import opened Wrappers
  import opened Protocol
  import opened DeviceState
  import opened Operations

  // === The abstract device ===

  datatype Credential = Credential(latest: Option<PasswordFileEntry>, code: Option<string>)

  /** A device as the protocol sees it: credentials by device kid, and HSM keys in order of insertion. */
  datatype DeviceView = DeviceView(credentials: map<string, Credential>, keys: seq<HsmKey>)

  datatype DeviceCmd =
    | NoChange
    | AddKey(key: HsmKey)
    | DropKey(kid: string)
    | SetPin(deviceKid: string, entry: PasswordFileEntry, consumeCode: bool)

  function Applied(d: DeviceView, cmd: DeviceCmd): DeviceView {
    match cmd
    case NoChange => d
    case AddKey(key) => d.(keys := d.keys + [key])
    case DropKey(kid) => d.(keys := Except(d.keys, kid))
    case SetPin(kid, entry, consume) =>
      var code := if consume || kid !in d.credentials then None else d.credentials[kid].code;
      d.(credentials := d.credentials[kid := Credential(Some(entry), code)])
  }

  /** The device left by a history of commands. */
  function Folded(d: DeviceView, cmds: seq<DeviceCmd>): DeviceView {
    if cmds == [] then d else Applied(Folded(d, cmds[..|cmds| - 1]), cmds[|cmds| - 1])
  }

  function CredentialOf(s: StateRecord, kid: string): Credential {
    Credential(GetPasswordFileEntry(s, kid),
               match FindDeviceKey(s, kid)
               case Some(e) => e.devAuthorizationCode
               case None => None)
  }

  function Abstract(s: StateRecord): DeviceView {
    DeviceView(map kid | kid in DeviceKids(s.deviceKeys) :: CredentialOf(s, kid), s.hsmKeys)
  }

  /** The command a successful operation stands for, read from its request and its port replies. */
  function CmdOf(ctx: OperationContext, ports: PortReplies): DeviceCmd {
    match ctx.innerRequest.requestType
    case HsmGenerateKey => if GeneratedBy(ctx, ports).Some? then AddKey(GeneratedBy(ctx, ports).value) else NoChange
    case HsmDeleteKey =>
      if ctx.innerRequest.data.Some? && ctx.innerRequest.data.value.asDeleteKey.Some?
      then DropKey(ctx.innerRequest.data.value.asDeleteKey.value) else NoChange
    case RegisterFinish =>
      if RegistrationOf(ctx, ports).Ok?
      then SetPin(ctx.deviceKid, NewEntry(RegistrationOf(ctx, ports).value, ports), true)
      else NoChange
    case ChangePinFinish =>
      if RegistrationOf(ctx, ports).Ok?
      then SetPin(ctx.deviceKid, NewEntry(RegistrationOf(ctx, ports).value, ports), false)
      else NoChange
    case _ => NoChange
  }

  /** The state in force after a successful operation: the issued one, or the request's own. */
  function StateAfter(ctx: OperationContext, ports: PortReplies): StateRecord
    requires Dispatched(ctx, ports).Ok?
  {
    match Dispatched(ctx, ports).value.state
    case Some(s) => s
    case None => ctx.state
  }

  // === One operation ===

  /** Which part of the state an operation may touch, and how. */
  predicate Effect(ctx: OperationContext, ports: PortReplies, s': StateRecord) {
    var op, s := ctx.innerRequest.requestType, ctx.state;
    && (op == HsmGenerateKey ==>
          GeneratedBy(ctx, ports).Some? && WithHsmKey(s, GeneratedBy(ctx, ports).value) == Ok(s'))
    && (op == HsmDeleteKey ==>
          && ctx.innerRequest.data.Some? && ctx.innerRequest.data.value.asDeleteKey.Some?
          && WithoutHsmKey(s, ctx.innerRequest.data.value.asDeleteKey.value) == Ok(s'))
    && (op == RegisterFinish ==>
          && RegistrationOf(ctx, ports).Ok?
          && FindDeviceKey(s, ctx.deviceKid).Some?
          && FindDeviceKey(s, ctx.deviceKid).value.devAuthorizationCode.Some?
          && WithPasswordFile(s, ctx.deviceKid, NewEntry(RegistrationOf(ctx, ports).value, ports),
                              FindDeviceKey(s, ctx.deviceKid).value.devAuthorizationCode) == Ok(s'))
    && (op == ChangePinFinish ==>
          && RegistrationOf(ctx, ports).Ok?
          && WithPasswordFile(s, ctx.deviceKid, NewEntry(RegistrationOf(ctx, ports).value, ports), None) == Ok(s'))
    && (!ChangesState(op) ==> s' == s)
  }

  predicate ChangesState(op: OperationId) {
    op.RegisterFinish? || op.ChangePinFinish? || op.HsmGenerateKey? || op.HsmDeleteKey?
  }

  /** Exactly these four operations issue a new state, each by its own update. */
  lemma EffectOf(ctx: OperationContext, ports: PortReplies)
    requires Dispatched(ctx, ports).Ok?
    ensures Dispatched(ctx, ports).value.state.Some? <==> ChangesState(ctx.innerRequest.requestType)
    ensures Effect(ctx, ports, StateAfter(ctx, ports))
  {
  }

  /** One update as the abstract device sees it. */
  predicate StepRefines(s: StateRecord, cmd: DeviceCmd, s': StateRecord) {
    Wellformed(s) ==> Abstract(s') == Applied(Abstract(s), cmd) && Wellformed(s') && CredentialsEvolve(s, s')
  }

  lemma AddKeyRefines(s: StateRecord, key: HsmKey)
    requires WithHsmKey(s, key).Ok?
    ensures StepRefines(s, AddKey(key), WithHsmKey(s, key).value) && WithHsmKey(s, key).value.deviceKeys == s.deviceKeys
  {
    if Wellformed(s) {
      AddKeepsWellformed(s, key);
    }
  }

  lemma DropKeyRefines(s: StateRecord, kid: string)
    requires WithoutHsmKey(s, kid).Ok?
    ensures StepRefines(s, DropKey(kid), WithoutHsmKey(s, kid).value)
            && WithoutHsmKey(s, kid).value.deviceKeys == s.deviceKeys
  {
    if Wellformed(s) {
      RemoveRefinesExcept(s, kid);
    }
  }

  lemma PinRefines(s: StateRecord, kid: string, entry: PasswordFileEntry, code: Option<string>)
    requires WithPasswordFile(s, kid, entry, code).Ok?
    ensures StepRefines(s, SetPin(kid, entry, code.Some?), WithPasswordFile(s, kid, entry, code).value)
    ensures WithPasswordFile(s, kid, entry, code).value.hsmKeys == s.hsmKeys
  {
    SetPinRefines(s, kid, entry, code);
    SetPasswordFileEvolves(s, kid, entry, code);
  }

  lemma SetPinRefines(s: StateRecord, kid: string, entry: PasswordFileEntry, code: Option<string>)
    requires WithPasswordFile(s, kid, entry, code).Ok?
    ensures Abstract(WithPasswordFile(s, kid, entry, code).value) ==
              Applied(Abstract(s), SetPin(kid, entry, code.Some?))
  {
    var s' := WithPasswordFile(s, kid, entry, code).value;
    SetPasswordFileEvolves(s, kid, entry, code);
    var a, b := Abstract(s'), Applied(Abstract(s), SetPin(kid, entry, code.Some?));
    assert kid in DeviceKids(s.deviceKeys);
    assert a.credentials.Keys == b.credentials.Keys;
    forall k | k in a.credentials ensures a.credentials[k] == b.credentials[k] {
      if k != kid {
        assert FindDeviceKey(s', k) == FindDeviceKey(s, k);
      }
    }
    assert a.credentials == b.credentials;
  }

  lemma EffectRefines(ctx: OperationContext, ports: PortReplies, s': StateRecord)
    requires Effect(ctx, ports, s')
    ensures StepRefines(ctx.state, CmdOf(ctx, ports), s')
    ensures ctx.innerRequest.requestType.HsmMutating() ==> s'.deviceKeys == ctx.state.deviceKeys
    ensures !ctx.innerRequest.requestType.HsmMutating() ==> s'.hsmKeys == ctx.state.hsmKeys
  {
    var s := ctx.state;
    match ctx.innerRequest.requestType
    case HsmGenerateKey =>
      AddKeyRefines(s, GeneratedBy(ctx, ports).value);
    case HsmDeleteKey =>
      DropKeyRefines(s, ctx.innerRequest.data.value.asDeleteKey.value);
    case RegisterFinish =>
      PinRefines(s, ctx.deviceKid, NewEntry(RegistrationOf(ctx, ports).value, ports),
                 FindDeviceKey(s, ctx.deviceKid).value.devAuthorizationCode);
    case ChangePinFinish =>
      PinRefines(s, ctx.deviceKid, NewEntry(RegistrationOf(ctx, ports).value, ports), None);
    case _ =>
  }

  /** Every successful operation refines its abstract command and keeps the kids unique and non-empty;
      HSM operations leave the credentials alone and all others leave the keys alone. */
  lemma OperationRefines(ctx: OperationContext, ports: PortReplies)
    requires Dispatched(ctx, ports).Ok? && Wellformed(ctx.state)
    ensures var s' := StateAfter(ctx, ports);
      && Abstract(s') == Applied(Abstract(ctx.state), CmdOf(ctx, ports))
      && Wellformed(s') && CredentialsEvolve(ctx.state, s')
      && (ctx.innerRequest.requestType.HsmMutating() ==> s'.deviceKeys == ctx.state.deviceKeys)
      && (!ctx.innerRequest.requestType.HsmMutating() ==> s'.hsmKeys == ctx.state.hsmKeys)
  {
    EffectOf(ctx, ports);
    EffectRefines(ctx, ports, StateAfter(ctx, ports));
  }

  /** What the client is told is what happened: a created key is found under its kid and was not before, a
      deleted one was there and is gone, a signature is by a key the device has, a listing is the device's. */
  lemma AnswersTellTheEffect(ctx: OperationContext, ports: PortReplies)
    requires Dispatched(ctx, ports).Ok? && Wellformed(ctx.state)
    ensures var s, s' := ctx.state, StateAfter(ctx, ports);
      match Dispatched(ctx, ports).value.data
      case CreateKeyResponse(jwk) =>
        && ctx.innerRequest.requestType.HsmGenerateKey?
        && FindHsmKey(s, jwk.kid).None? && FindHsmKey(s', jwk.kid).Some?
        && FindHsmKey(s', jwk.kid).value.publicKeyJwk == jwk
      case DeleteKeyResponse(kid) =>
        && ctx.innerRequest.requestType.HsmDeleteKey?
        && FindHsmKey(s, kid).Some? && FindHsmKey(s', kid).None? && s'.hsmKeys == Except(s.hsmKeys, kid)
      case SignatureResponse(signature) =>
        && ctx.innerRequest.requestType.HsmSign? && s' == s
        && FindHsmKey(s, ctx.innerRequest.data.value.asSign.value.hsmKid).Some?
        && var key := FindHsmKey(s, ctx.innerRequest.data.value.asSign.value.hsmKid).value;
           ports.sign(key, ctx.innerRequest.data.value.asSign.value.message) == Some(signature)
      case ListKeysResponse(infos) =>
        ctx.innerRequest.requestType.HsmListKeys? && Lists(infos, s'.hsmKeys) && s' == s
      case PakeResponse(_) => !ctx.innerRequest.requestType.HsmMutating() && !ctx.innerRequest.requestType.HsmListKeys?
  {
    EffectOf(ctx, ports);
    match ctx.innerRequest.requestType
    case HsmGenerateKey => AddKeepsWellformed(ctx.state, GeneratedBy(ctx, ports).value);
    case HsmDeleteKey => RemoveRefinesExcept(ctx.state, ctx.innerRequest.data.value.asDeleteKey.value);
    case _ =>
  }

  // === Chains of issued states ===

  /** One successful operation: its context, what the ports answered, and the state in force afterwards. */
  datatype Link = Link(ctx: OperationContext, ports: PortReplies, after: StateRecord)

  predicate Succeeds(link: Link) {
    Dispatched(link.ctx, link.ports).Ok? && link.after == StateAfter(link.ctx, link.ports)
  }

  /** The state after the first `k` links of a chain that starts from `s`. */
  function StateAt(s: StateRecord, links: seq<Link>, k: nat): StateRecord
    requires k <= |links|
  {
    if k == 0 then s else links[k - 1].after
  }

  /** Each link succeeds on the state the one before left. */
  predicate Chain(s: StateRecord, links: seq<Link>) {
    forall k {:trigger Succeeds(links[k])} :: 0 <= k < |links| ==>
      Succeeds(links[k]) && links[k].ctx.state == StateAt(s, links, k)
  }

  function CmdsOf(links: seq<Link>): seq<DeviceCmd> {
    seq(|links|, i requires 0 <= i < |links| => CmdOf(links[i].ctx, links[i].ports))
  }

  predicate StepsRefine(s: StateRecord, links: seq<Link>) {
    forall k :: 0 <= k < |links| ==> StepRefines(StateAt(s, links, k), CmdsOf(links)[k], StateAt(s, links, k + 1))
  }

  lemma LinkRefines(link: Link)
    requires Succeeds(link)
    ensures StepRefines(link.ctx.state, CmdOf(link.ctx, link.ports), link.after)
  {
    if Wellformed(link.ctx.state) {
      OperationRefines(link.ctx, link.ports);
    }
  }

  lemma ChainStepsRefine(s: StateRecord, links: seq<Link>)
    requires Chain(s, links)
    ensures StepsRefine(s, links)
  {
    forall k | 0 <= k < |links| ensures StepRefines(StateAt(s, links, k), CmdsOf(links)[k], StateAt(s, links, k + 1)) {
      LinkRefines(links[k]);
    }
  }

  lemma FoldGrows(d: DeviceView, cmds: seq<DeviceCmd>, k: nat)
    requires 0 < k <= |cmds|
    ensures Folded(d, cmds[..k]) == Applied(Folded(d, cmds[..k - 1]), cmds[k - 1])
  {
    assert cmds[..k][..k - 1] == cmds[..k - 1];
  }

  lemma {:induction false} FoldAlong(s: StateRecord, links: seq<Link>, k: nat)
    requires StepsRefine(s, links) && Wellformed(s) && k <= |links|
    ensures Abstract(StateAt(s, links, k)) == Folded(Abstract(s), CmdsOf(links)[..k])
    ensures Wellformed(StateAt(s, links, k))
  {
    if k > 0 {
      FoldAlong(s, links, k - 1);
      assert StepRefines(StateAt(s, links, k - 1), CmdsOf(links)[k - 1], StateAt(s, links, k));
      FoldGrows(Abstract(s), CmdsOf(links), k);
    }
  }

  /** The state at any point of a chain is the fold of the commands so far, whatever the chain. */
  lemma ChainRefinesFold(s: StateRecord, links: seq<Link>, k: nat)
    requires Chain(s, links) && Wellformed(s) && k <= |links|
    ensures Abstract(StateAt(s, links, k)) == Folded(Abstract(s), CmdsOf(links)[..k])
    ensures Wellformed(StateAt(s, links, k))
  {
    ChainStepsRefine(s, links);
    FoldAlong(s, links, k);
  }

  /** A key listing answers with the keys the whole history left, in insertion order. */
  lemma ListReplaysHistory(s: StateRecord, links: seq<Link>, k: nat)
    requires Chain(s, links) && Wellformed(s) && k < |links|
    requires links[k].ctx.innerRequest.requestType == HsmListKeys
    ensures Dispatched(links[k].ctx, links[k].ports).Ok?
    ensures var answer := Dispatched(links[k].ctx, links[k].ports).value.data;
            answer.ListKeysResponse? && Lists(answer.keyInfo, Folded(Abstract(s), CmdsOf(links)[..k]).keys)
  {
    ChainRefinesFold(s, links, k);
    assert Succeeds(links[k]);
  }

  lemma {:induction false} EvolvesAlong(s: StateRecord, links: seq<Link>, i: nat, j: nat)
    requires StepsRefine(s, links) && Wellformed(s) && i <= j <= |links|
    ensures CredentialsEvolve(StateAt(s, links, i), StateAt(s, links, j))
  {
    if i < j {
      EvolvesAlong(s, links, i, j - 1);
      FoldAlong(s, links, j - 1);
      assert StepRefines(StateAt(s, links, j - 1), CmdsOf(links)[j - 1], StateAt(s, links, j));
      CredentialsEvolveTransitive(StateAt(s, links, i), StateAt(s, links, j - 1), StateAt(s, links, j));
    }
  }

  /** From any point of a chain on, codes only disappear and password lists only become one entry long. */
  lemma ChainEvolves(s: StateRecord, links: seq<Link>, i: nat, j: nat)
    requires Chain(s, links) && Wellformed(s) && i <= j <= |links|
    ensures CredentialsEvolve(StateAt(s, links, i), StateAt(s, links, j))
  {
    ChainStepsRefine(s, links);
    EvolvesAlong(s, links, i, j);
  }

  lemma EvolvedEntry(s: StateRecord, s': StateRecord, kid: string)
    requires CredentialsEvolve(s, s')
    ensures FindDeviceKey(s, kid).Some? <==> FindDeviceKey(s', kid).Some?
    ensures FindDeviceKey(s, kid).Some? ==> EntryEvolves(FindDeviceKey(s, kid).value, FindDeviceKey(s', kid).value)
  {
    assert DeviceKids(s.deviceKeys) == DeviceKids(s'.deviceKeys) by {
      forall i | 0 <= i < |s.deviceKeys| ensures DeviceKids(s.deviceKeys)[i] == DeviceKids(s'.deviceKeys)[i] {
        assert EntryEvolves(s.deviceKeys[i], s'.deviceKeys[i]);
      }
    }
    match Position(DeviceKids(s.deviceKeys), kid)
    case None =>
    case Some(i) => assert EntryEvolves(s.deviceKeys[i], s'.deviceKeys[i]);
  }

  predicate Registers(link: Link, kid: string) {
    link.ctx.deviceKid == kid && link.ctx.innerRequest.requestType.RegisterFinish?
  }

  /** A registration step, start or finish, on the device key. */
  predicate UsesCode(link: Link, kid: string) {
    link.ctx.deviceKid == kid
    && (link.ctx.innerRequest.requestType.RegisterFinish? || link.ctx.innerRequest.requestType.RegisterStart?)
  }

  function CodeOf(s: StateRecord, kid: string): Option<string> {
    CredentialOf(s, kid).code
  }

  /** A code once gone never comes back along a chain, and never changes into another. */
  lemma CodeOnlyDisappears(s: StateRecord, links: seq<Link>, i: nat, j: nat, kid: string)
    requires Chain(s, links) && Wellformed(s) && i <= j <= |links|
    ensures CodeOf(StateAt(s, links, j), kid) == CodeOf(StateAt(s, links, i), kid)
            || CodeOf(StateAt(s, links, j), kid) == None
  {
    ChainEvolves(s, links, i, j);
    EvolvedEntry(StateAt(s, links, i), StateAt(s, links, j), kid);
  }

  /** Registering takes a code and leaves none. */
  lemma RegisteringSpendsTheCode(link: Link)
    requires Succeeds(link) && link.ctx.innerRequest.requestType.RegisterFinish?
    ensures CodeOf(link.ctx.state, link.ctx.deviceKid).Some?
    ensures CodeOf(link.after, link.ctx.deviceKid) == None
  {
    var s, kid := link.ctx.state, link.ctx.deviceKid;
    EffectOf(link.ctx, link.ports);
    SetPasswordFileEvolves(s, kid, NewEntry(RegistrationOf(link.ctx, link.ports).value, link.ports),
                           FindDeviceKey(s, kid).value.devAuthorizationCode);
  }

  /** Without a code on the device entry neither registration step succeeds. */
  lemma SpentCodeFails(ctx: OperationContext, ports: PortReplies)
    requires CodeOf(ctx.state, ctx.deviceKid) == None
    requires ctx.innerRequest.requestType.RegisterStart? || ctx.innerRequest.requestType.RegisterFinish?
    ensures Dispatched(ctx, ports).Err?
  {
  }

  lemma NoCodeNoStep(link: Link, kid: string)
    requires Succeeds(link) && CodeOf(link.ctx.state, kid) == None
    ensures !UsesCode(link, kid)
  {
    if UsesCode(link, kid) {
      SpentCodeFails(link.ctx, link.ports);
    }
  }

  /** After a device key has registered, no later registration step on it succeeds: the one-shot code is spent. */
  lemma RegistersOnce(s: StateRecord, links: seq<Link>, i: nat, j: nat, kid: string)
    requires Chain(s, links) && Wellformed(s) && i < j < |links|
    requires Registers(links[i], kid)
    ensures !UsesCode(links[j], kid)
  {
    assert Succeeds(links[i]) && Succeeds(links[j]);
    RegisteringSpendsTheCode(links[i]);
    CodeOnlyDisappears(s, links, i + 1, j, kid);
    NoCodeNoStep(links[j], kid);
  }

  function Registrations(links: seq<Link>, kid: string): nat {
    if links == [] then 0
    else Registrations(links[..|links| - 1], kid) + if Registers(links[|links| - 1], kid) then 1 else 0
  }

  /** Along any chain, register-finish succeeds at most once per device key. */
  lemma {:induction false} AtMostOneRegistration(s: StateRecord, links: seq<Link>, kid: string, k: nat)
    requires Chain(s, links) && Wellformed(s) && k <= |links|
    ensures Registrations(links[..k], kid) <= 1
  {
    if k > 0 {
      AtMostOneRegistration(s, links, kid, k - 1);
      assert links[..k][..k - 1] == links[..k - 1];
      if Registers(links[k - 1], kid) && Registrations(links[..k - 1], kid) > 0 {
        var i := SomeRegistration(links[..k - 1], kid);
        RegistersOnce(s, links, i, k - 1, kid);
      }
    }
  }

  lemma {:induction false} SomeRegistration(links: seq<Link>, kid: string) returns (i: nat)
    requires Registrations(links, kid) > 0
    ensures i < |links| && Registers(links[i], kid)
  {
    var n := |links| - 1;
    if Registers(links[n], kid) {
      i := n;
    } else {
      i := SomeRegistration(links[..n], kid);
    }
  }

  /** Along any chain a password list stays at most one entry long and never empties again. */
  lemma PasswordListStaysSingle(s: StateRecord, links: seq<Link>, i: nat, j: nat, kid: string)
    requires Chain(s, links) && Wellformed(s) && i <= j <= |links|
    requires FindDeviceKey(StateAt(s, links, i), kid).Some?
    ensures var e := FindDeviceKey(StateAt(s, links, i), kid).value;
            && FindDeviceKey(StateAt(s, links, j), kid).Some?
            && var e' := FindDeviceKey(StateAt(s, links, j), kid).value;
               && (|e.passwordFiles| <= 1 ==> |e'.passwordFiles| <= 1)
               && (e.passwordFiles != [] ==> e'.passwordFiles != [])
  {
    ChainEvolves(s, links, i, j);
    EvolvedEntry(StateAt(s, links, i), StateAt(s, links, j), kid);
  }

  /** Off a chain the code is not one-shot: a request that carries the same state as one that registered
      can register again. */
  lemma ForkedStatesReuseTheCode(a: Link, ctx: OperationContext, ports: PortReplies)
    requires Succeeds(a) && a.ctx.innerRequest.requestType.RegisterFinish?
    requires ctx.state == a.ctx.state && ctx.deviceKid == a.ctx.deviceKid && ctx.innerRequest == a.ctx.innerRequest
    requires RegistrationOf(ctx, ports).Ok? && ports.toValueOk
    ensures Dispatched(ctx, ports).Ok?
  {
  }
}
