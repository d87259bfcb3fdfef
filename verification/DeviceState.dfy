/** The device state that travels with every request: registered device keys and HSM keys. */
module DeviceState {
  import opened Wrappers
  import opened Protocol

  datatype PasswordFileEntry = PasswordFileEntry(
    passwordFile: Bytes,
    opaqueDomainSeparator: string,
    createdAt: string)

  datatype DeviceKeyEntry = DeviceKeyEntry(
    jwsPublicKey: EcPublicJwk,
    jwePublicKey: Option<EcPublicJwk>,
    passwordFiles: seq<PasswordFileEntry>,
    devAuthorizationCode: Option<string>)
  {
    function Kid(): string {
      jwsPublicKey.kid
    }

    function EffectiveJwePublicKey(): EcPublicJwk {
      match jwePublicKey
      case Some(k) => k
      case None => jwsPublicKey
    }
  }

  datatype HsmKey = HsmKey(
    wrappedPrivateKey: Bytes,
    publicKeyJwk: EcPublicJwk,
    wrapKeyLabel: string,
    createdAt: string)
  {
    function Kid(): string {
      publicKeyJwk.kid
    }
  }

  /** The state as a value: what a state token carries. */
  datatype StateRecord = StateRecord(version: nat, deviceKeys: seq<DeviceKeyEntry>, hsmKeys: seq<HsmKey>)

  // === Lookup ===

  function DeviceKids(keys: seq<DeviceKeyEntry>): (kids: seq<string>) {
    seq(|keys|, i requires 0 <= i < |keys| => keys[i].Kid())
  }

  function HsmKids(keys: seq<HsmKey>): (kids: seq<string>) {
    seq(|keys|, i requires 0 <= i < |keys| => keys[i].Kid())
  }

  /** The position of the first entry with the kid, as `Iterator::position` finds it. */
  function Position(kids: seq<string>, kid: string): (r: Option<nat>)
    ensures r.None? <==> kid !in kids
    ensures r.Some? ==> r.value < |kids| && kids[r.value] == kid
    ensures r.Some? ==> forall i :: 0 <= i < r.value ==> kids[i] != kid
  {
    if kids == [] then None
    else if kids[0] == kid then Some(0)
    else match Position(kids[1..], kid)
         case None => None
         case Some(i) => Some(i + 1)
  }

  function FindDeviceKey(s: StateRecord, kid: string): Option<DeviceKeyEntry> {
    match Position(DeviceKids(s.deviceKeys), kid)
    case None => None
    case Some(i) => Some(s.deviceKeys[i])
  }

  function FindHsmKey(s: StateRecord, kid: string): Option<HsmKey> {
    match Position(HsmKids(s.hsmKeys), kid)
    case None => None
    case Some(i) => Some(s.hsmKeys[i])
  }

  /** The latest password file registered for the device key. */
  function GetPasswordFileEntry(s: StateRecord, kid: string): Option<PasswordFileEntry> {
    match FindDeviceKey(s, kid)
    case None => None
    case Some(entry) =>
      if entry.passwordFiles == [] then None else Some(entry.passwordFiles[|entry.passwordFiles| - 1])
  }

  // === What the updates compute ===

  function Without<T>(s: seq<T>, i: nat): seq<T>
    requires i < |s|
  {
    s[..i] + s[i + 1..]
  }

  function WithHsmKey(s: StateRecord, key: HsmKey): Result<StateRecord, ServiceRequestError> {
    if key.Kid() == "" then Err(InvalidPublicKey)
    else if key.Kid() in HsmKids(s.hsmKeys) then Err(DuplicateKey)
    else Ok(s.(hsmKeys := s.hsmKeys + [key]))
  }

  function WithoutHsmKey(s: StateRecord, kid: string): Result<StateRecord, ServiceRequestError> {
    match Position(HsmKids(s.hsmKeys), kid)
    case None => Err(HsmKeyNotFound)
    case Some(i) => Ok(s.(hsmKeys := Without(s.hsmKeys, i)))
  }

  function WithPasswordFile(s: StateRecord, kid: string, entry: PasswordFileEntry, code: Option<string>)
    : Result<StateRecord, ServiceRequestError>
  {
    match Position(DeviceKids(s.deviceKeys), kid)
    case None => Err(UnknownClient)
    case Some(i) =>
      var device := s.deviceKeys[i];
      if code.Some? && device.devAuthorizationCode != code then Err(InvalidAuthorizationCode)
      else
        var kept := if code.Some? then None else device.devAuthorizationCode;
        Ok(s.(deviceKeys := s.deviceKeys[i := device.(passwordFiles := [entry], devAuthorizationCode := kept)]))
  }

  lemma KidsWithout(keys: seq<HsmKey>, i: nat)
    requires i < |keys|
    ensures HsmKids(Without(keys, i)) == Without(HsmKids(keys), i)
  {
  }

  lemma KidsUpdated(keys: seq<DeviceKeyEntry>, i: nat, entry: DeviceKeyEntry)
    requires i < |keys| && entry.Kid() == keys[i].Kid()
    ensures DeviceKids(keys[i := entry]) == DeviceKids(keys)
  {
  }

  /** The working copy an operation updates in place before it is re-issued. */
  class DeviceHsmState {
    var version: nat
    var deviceKeys: seq<DeviceKeyEntry>
    var hsmKeys: seq<HsmKey>

    function Record(): StateRecord
      reads this
    {
      StateRecord(version, deviceKeys, hsmKeys)
    }

    constructor (s: StateRecord)
      ensures Record() == s
    {
      version, deviceKeys, hsmKeys := s.version, s.deviceKeys, s.hsmKeys;
    }

    /** Appends the key unless its kid is empty or taken. A refused call changes nothing. */
    method AddHsmKey(key: HsmKey) returns (r: Result<(), ServiceRequestError>)
      modifies this`hsmKeys
      ensures r.Err? ==> hsmKeys == old(hsmKeys)
      ensures r == Err(InvalidPublicKey) <==> key.Kid() == ""
      ensures r == Err(DuplicateKey) <==> key.Kid() != "" && key.Kid() in HsmKids(old(hsmKeys))
      ensures r.Ok? ==> hsmKeys == old(hsmKeys) + [key]
      ensures WithHsmKey(old(Record()), key) == if r.Ok? then Ok(Record()) else Err(r.error)
    {
      var kid := key.Kid();
      if kid == "" {
        return Err(InvalidPublicKey);
      }
      if FindHsmKey(Record(), kid).Some? {
        return Err(DuplicateKey);
      }
      hsmKeys := hsmKeys + [key];
      return Ok(());
    }

    /** Takes out the first key with the kid and shifts the rest, order kept. */
    method RemoveHsmKey(kid: string) returns (r: Result<HsmKey, ServiceRequestError>)
      modifies this`hsmKeys
      ensures r.Err? ==> hsmKeys == old(hsmKeys) && r.error == HsmKeyNotFound
      ensures r.Ok? <==> kid in HsmKids(old(hsmKeys))
      ensures r.Ok? ==> r.value.Kid() == kid && multiset(old(hsmKeys)) == multiset(hsmKeys) + multiset{r.value}
      ensures WithoutHsmKey(old(Record()), kid) == if r.Ok? then Ok(Record()) else Err(r.error)
    {
      match Position(HsmKids(hsmKeys), kid) {
        case None =>
          return Err(HsmKeyNotFound);
        case Some(pos) =>
          var removed := hsmKeys[pos];
          assert hsmKeys == hsmKeys[..pos] + [removed] + hsmKeys[pos + 1..];
          hsmKeys := Without(hsmKeys, pos);
          return Ok(removed);
      }
    }

    method AddDeviceKey(entry: DeviceKeyEntry) returns (r: Result<(), ServiceRequestError>)
      modifies this`deviceKeys
      ensures r.Err? ==> deviceKeys == old(deviceKeys)
      ensures r == Err(InvalidPublicKey) <==> entry.Kid() == ""
      ensures r == Err(DuplicateKey) <==> entry.Kid() != "" && entry.Kid() in DeviceKids(old(deviceKeys))
      ensures r.Ok? ==> deviceKeys == old(deviceKeys) + [entry]
    {
      var kid := entry.Kid();
      if kid == "" {
        return Err(InvalidPublicKey);
      }
      if FindDeviceKey(Record(), kid).Some? {
        return Err(DuplicateKey);
      }
      deviceKeys := deviceKeys + [entry];
      return Ok(());
    }

    method RemoveDeviceKey(kid: string) returns (r: Result<DeviceKeyEntry, ServiceRequestError>)
      modifies this`deviceKeys
      ensures r.Err? ==> deviceKeys == old(deviceKeys) && r.error == UnknownClient
      ensures r.Ok? <==> kid in DeviceKids(old(deviceKeys))
      ensures r.Ok? ==>
        var first := Position(DeviceKids(old(deviceKeys)), kid).value;
        r.value == old(deviceKeys)[first] && r.value.Kid() == kid && deviceKeys == Without(old(deviceKeys), first)
    {
      match Position(DeviceKids(deviceKeys), kid) {
        case None =>
          return Err(UnknownClient);
        case Some(pos) =>
          var removed := deviceKeys[pos];
          deviceKeys := Without(deviceKeys, pos);
          return Ok(removed);
      }
    }

    /** Replaces the password files of one device key; a supplied code must match and is consumed. */
    method SetPasswordFile(kid: string, entry: PasswordFileEntry, code: Option<string>)
      returns (r: Result<(), ServiceRequestError>)
      modifies this`deviceKeys
      ensures r.Err? ==> deviceKeys == old(deviceKeys)
      ensures r.Ok? ==> DeviceKids(deviceKeys) == DeviceKids(old(deviceKeys))
      ensures WithPasswordFile(old(Record()), kid, entry, code) == if r.Ok? then Ok(Record()) else Err(r.error)
    {
      var found := Position(DeviceKids(deviceKeys), kid);
      if found.None? {
        return Err(UnknownClient);
      }
      var pos := found.value;
      var entry0 := deviceKeys[pos];
      if code.Some? {
        if entry0.devAuthorizationCode != code {
          return Err(InvalidAuthorizationCode);
        }
        entry0 := entry0.(devAuthorizationCode := None);
      }
      entry0 := entry0.(passwordFiles := [entry]);
      KidsUpdated(deviceKeys, pos, entry0);
      deviceKeys := deviceKeys[pos := entry0];
      return Ok(());
    }
  }

  // === The key vector refines an insertion-ordered map ===

  /** Kids are non-empty and no two keys share one. */
  predicate UniqueKids(kids: seq<string>) {
    && "" !in kids
    && forall i, j :: 0 <= i < j < |kids| ==> kids[i] != kids[j]
  }

  predicate Wellformed(s: StateRecord) {
    UniqueKids(HsmKids(s.hsmKeys))
  }

  /** Every key whose kid is not the given one, in order. */
  function Except(keys: seq<HsmKey>, kid: string): (r: seq<HsmKey>)
    ensures kid !in HsmKids(r)
  {
    if keys == [] then []
    else if keys[0].Kid() == kid then Except(keys[1..], kid)
    else
      var rest := Except(keys[1..], kid);
      assert HsmKids([keys[0]] + rest) == [keys[0].Kid()] + HsmKids(rest);
      [keys[0]] + rest
  }

  lemma {:induction false} ExceptAbsent(keys: seq<HsmKey>, kid: string)
    requires kid !in HsmKids(keys)
    ensures Except(keys, kid) == keys
  {
    if keys != [] {
      assert HsmKids(keys)[0] == keys[0].Kid();
      assert HsmKids(keys[1..]) == HsmKids(keys)[1..];
      ExceptAbsent(keys[1..], kid);
    }
  }

  lemma UniqueWithout(kids: seq<string>, i: nat)
    requires UniqueKids(kids) && i < |kids|
    ensures UniqueKids(Without(kids, i)) && kids[i] !in Without(kids, i)
  {
  }

  lemma {:induction false} ExceptAt(keys: seq<HsmKey>, i: nat)
    requires UniqueKids(HsmKids(keys)) && i < |keys|
    ensures Except(keys, keys[i].Kid()) == Without(keys, i)
  {
    var kids, rest := HsmKids(keys), keys[1..];
    assert HsmKids(rest) == kids[1..];
    if i == 0 {
      ExceptAbsent(rest, kids[0]);
    } else {
      assert kids[0] != kids[i];
      ExceptAt(rest, i - 1);
      assert Without(keys, i) == [keys[0]] + Without(rest, i - 1);
    }
  }

  /** Removing by position drops exactly the entry of that kid and keeps the order of the others. */
  lemma RemoveRefinesExcept(s: StateRecord, kid: string)
    requires Wellformed(s)
    ensures WithoutHsmKey(s, kid).Ok? <==> kid in HsmKids(s.hsmKeys)
    ensures WithoutHsmKey(s, kid).Ok? ==>
      var s' := WithoutHsmKey(s, kid).value;
      && s'.hsmKeys == Except(s.hsmKeys, kid)
      && s'.deviceKeys == s.deviceKeys
      && FindHsmKey(s', kid) == None
      && Wellformed(s')
  {
    match Position(HsmKids(s.hsmKeys), kid)
    case None =>
    case Some(i) =>
      ExceptAt(s.hsmKeys, i);
      KidsWithout(s.hsmKeys, i);
      UniqueWithout(HsmKids(s.hsmKeys), i);
  }

  /** Adding is exactly appending a fresh, non-empty kid, and keeps the kids unique. */
  lemma AddKeepsWellformed(s: StateRecord, key: HsmKey)
    requires Wellformed(s)
    ensures WithHsmKey(s, key).Ok? <==> key.Kid() != "" && FindHsmKey(s, key.Kid()) == None
    ensures WithHsmKey(s, key).Ok? ==>
      var s' := WithHsmKey(s, key).value;
      && s'.hsmKeys == s.hsmKeys + [key]
      && s'.deviceKeys == s.deviceKeys
      && FindHsmKey(s', key.Kid()) == Some(key)
      && Wellformed(s')
  {
    if WithHsmKey(s, key).Ok? {
      var keys' := s.hsmKeys + [key];
      assert HsmKids(keys')[|s.hsmKeys|] == key.Kid();
      assert forall i :: 0 <= i < |s.hsmKeys| ==> HsmKids(keys')[i] == HsmKids(s.hsmKeys)[i];
    }
  }

  /** Adding a key and removing it again gives back the state it started from. */
  lemma AddThenRemove(s: StateRecord, key: HsmKey)
    requires WithHsmKey(s, key).Ok?
    ensures WithoutHsmKey(WithHsmKey(s, key).value, key.Kid()) == Ok(s)
  {
    var s' := WithHsmKey(s, key).value;
    var kids := HsmKids(s.hsmKeys);
    assert forall i :: 0 <= i < |kids| ==> HsmKids(s'.hsmKeys)[i] == kids[i];
    assert HsmKids(s'.hsmKeys)[|kids|] == key.Kid();
    assert Position(HsmKids(s'.hsmKeys), key.Kid()) == Some(|kids|);
    assert Without(s'.hsmKeys, |kids|) == s.hsmKeys;
  }

  /** Removing one kid leaves every other kid's key where lookups find it. */
  lemma RemoveKeepsOthers(s: StateRecord, kid: string, other: string)
    requires Wellformed(s) && kid != other
    requires WithoutHsmKey(s, kid).Ok?
    ensures FindHsmKey(WithoutHsmKey(s, kid).value, other) == FindHsmKey(s, other)
  {
    var i := Position(HsmKids(s.hsmKeys), kid).value;
    KidsWithout(s.hsmKeys, i);
    PositionWithout(HsmKids(s.hsmKeys), i, other);
  }

  /** A position is where the kid is and nothing before it is. */
  lemma PositionIs(kids: seq<string>, kid: string, i: nat)
    requires i < |kids| && kids[i] == kid && forall a :: 0 <= a < i ==> kids[a] != kid
    ensures Position(kids, kid) == Some(i)
  {
  }

  lemma PositionWithout(kids: seq<string>, i: nat, other: string)
    requires i < |kids| && kids[i] != other
    ensures Position(Without(kids, i), other) ==
            match Position(kids, other)
            case None => None
            case Some(j) => Some(if j < i then j else j - 1)
  {
    var rest := Without(kids, i);
    forall a | 0 <= a < |rest| ensures rest[a] == kids[if a < i then a else a + 1] {
    }
    if Position(kids, other).Some? {
      var j := Position(kids, other).value;
      PositionIs(rest, other, if j < i then j else j - 1);
    } else {
      PositionNone(kids, rest, other);
    }
  }

  lemma PositionNone(kids: seq<string>, rest: seq<string>, other: string)
    requires Position(kids, other).None? && forall a :: 0 <= a < |rest| ==> rest[a] in kids
    ensures Position(rest, other).None?
  {
  }

  /** Lookups return the first entry of the kid, and the last of its password files. */
  lemma LookupsExactly(s: StateRecord, kid: string)
    ensures match FindHsmKey(s, kid)
            case None => forall i :: 0 <= i < |s.hsmKeys| ==> s.hsmKeys[i].Kid() != kid
            case Some(key) =>
              exists i :: 0 <= i < |s.hsmKeys| && s.hsmKeys[i] == key && key.publicKeyJwk.kid == kid
                          && forall j :: 0 <= j < i ==> s.hsmKeys[j].publicKeyJwk.kid != kid
    ensures match FindDeviceKey(s, kid)
            case None =>
              && (forall i :: 0 <= i < |s.deviceKeys| ==> s.deviceKeys[i].Kid() != kid)
              && GetPasswordFileEntry(s, kid) == None
            case Some(entry) =>
              && (exists i :: 0 <= i < |s.deviceKeys| && s.deviceKeys[i] == entry && entry.jwsPublicKey.kid == kid
                              && forall j :: 0 <= j < i ==> s.deviceKeys[j].jwsPublicKey.kid != kid)
              && (entry.passwordFiles == [] ==> GetPasswordFileEntry(s, kid) == None)
              && (forall earlier, latest :: entry.passwordFiles == earlier + [latest] ==>
                    GetPasswordFileEntry(s, kid) == Some(latest))
  {
    FindsHsmKey(s, kid);
    FindsDeviceKey(s, kid);
  }

  lemma FindsHsmKey(s: StateRecord, kid: string)
    ensures match FindHsmKey(s, kid)
            case None => forall i :: 0 <= i < |s.hsmKeys| ==> s.hsmKeys[i].Kid() != kid
            case Some(key) =>
              exists i :: 0 <= i < |s.hsmKeys| && s.hsmKeys[i] == key && key.publicKeyJwk.kid == kid
                          && forall j :: 0 <= j < i ==> s.hsmKeys[j].publicKeyJwk.kid != kid
  {
    var kids := HsmKids(s.hsmKeys);
    match Position(kids, kid)
    case None =>
      forall i | 0 <= i < |s.hsmKeys| ensures s.hsmKeys[i].Kid() != kid {
        assert kids[i] in kids;
      }
    case Some(i) =>
      assert forall j :: 0 <= j < i ==> kids[j] == s.hsmKeys[j].publicKeyJwk.kid;
  }

  lemma FindsDeviceKey(s: StateRecord, kid: string)
    ensures match FindDeviceKey(s, kid)
            case None => forall i :: 0 <= i < |s.deviceKeys| ==> s.deviceKeys[i].Kid() != kid
            case Some(entry) =>
              exists i :: 0 <= i < |s.deviceKeys| && s.deviceKeys[i] == entry && entry.jwsPublicKey.kid == kid
                          && forall j :: 0 <= j < i ==> s.deviceKeys[j].jwsPublicKey.kid != kid
  {
    var kids := DeviceKids(s.deviceKeys);
    match Position(kids, kid)
    case None =>
      forall i | 0 <= i < |s.deviceKeys| ensures s.deviceKeys[i].Kid() != kid {
        assert kids[i] in kids;
      }
    case Some(i) =>
      assert forall j :: 0 <= j < i ==> kids[j] == s.deviceKeys[j].jwsPublicKey.kid;
  }

  // === How one update may change the credentials ===

  /** Device keys keep their place; a code may only disappear, a password list only becomes one entry long. */
  predicate CredentialsEvolve(s: StateRecord, s': StateRecord) {
    && |s'.deviceKeys| == |s.deviceKeys|
    && forall i :: 0 <= i < |s.deviceKeys| ==> EntryEvolves(s.deviceKeys[i], s'.deviceKeys[i])
  }

  predicate EntryEvolves(e: DeviceKeyEntry, e': DeviceKeyEntry) {
    && e'.jwsPublicKey == e.jwsPublicKey
    && e'.jwePublicKey == e.jwePublicKey
    && (e'.devAuthorizationCode == e.devAuthorizationCode || e'.devAuthorizationCode == None)
    && (e'.passwordFiles == e.passwordFiles || |e'.passwordFiles| == 1)
  }

  lemma CredentialsEvolveTransitive(a: StateRecord, b: StateRecord, c: StateRecord)
    requires CredentialsEvolve(a, b) && CredentialsEvolve(b, c)
    ensures CredentialsEvolve(a, c)
  {
  }

  /** Setting a password file touches one entry, leaves the HSM keys alone, and makes that file the latest. */
  lemma SetPasswordFileEvolves(s: StateRecord, kid: string, entry: PasswordFileEntry, code: Option<string>)
    ensures WithPasswordFile(s, kid, entry, code).Ok? <==>
      && FindDeviceKey(s, kid).Some?
      && (code.Some? ==> FindDeviceKey(s, kid).value.devAuthorizationCode == code)
    ensures WithPasswordFile(s, kid, entry, code).Ok? ==>
      var s' := WithPasswordFile(s, kid, entry, code).value;
      && CredentialsEvolve(s, s')
      && s'.hsmKeys == s.hsmKeys
      && DeviceKids(s'.deviceKeys) == DeviceKids(s.deviceKeys)
      && GetPasswordFileEntry(s', kid) == Some(entry)
      && FindDeviceKey(s', kid).value.devAuthorizationCode ==
         (if code.Some? then None else FindDeviceKey(s, kid).value.devAuthorizationCode)
      && forall other :: other != kid ==> FindDeviceKey(s', other) == FindDeviceKey(s, other)
  {
  }

  /** Why a password file is refused. */
  lemma PasswordFileRefused(s: StateRecord, kid: string, entry: PasswordFileEntry, code: Option<string>)
    requires WithPasswordFile(s, kid, entry, code).Err?
    ensures WithPasswordFile(s, kid, entry, code).error ==
            if FindDeviceKey(s, kid).None? then UnknownClient else InvalidAuthorizationCode
  {
  }
}
