/** What the built property table holds, branch by branch, and how lookups behave on it. */
module PropertyFacts {
  import opened Wrappers
  import opened JavaText
  import opened PropertyManager

  /** The entries of `p` in `a` and in `b` agree: both absent, or both present with equal values. */
  predicate SameEntries(a: Properties, b: Properties, p: Property) {
    && (PlainKey(p) in a <==> PlainKey(p) in b)
    && (UriKey(p) in a <==> UriKey(p) in b)
    && (PlainKey(p) in a ==> a[PlainKey(p)] == b[PlainKey(p)])
    && (UriKey(p) in a ==> a[UriKey(p)] == b[UriKey(p)])
  }

  /** What the block for a single-source property `p` leaves in a table that had no entry for it. */
  predicate HoldsSource(m: Properties, inp: Inputs, p: Property)
    requires p != DeviceId
  {
    && (PlainKey(p) in m <==> Source(inp, p).Some?)
    && (UriKey(p) in m <==> Source(inp, p).Some?)
    && (Source(inp, p).Some? ==>
          m[PlainKey(p)] == Source(inp, p) && m[UriKey(p)] == Some(Tag(p) + Source(inp, p).value))
  }

  /**
   * Running the blocks for `ps` leaves every other property's entries as they were, and
   * gives each property of `ps` exactly the entries its own source dictates.
   */
  lemma {:induction false} PutAllEntries(m: Properties, inp: Inputs, ps: seq<Property>, p: Property)
    requires DeviceId !in ps
    requires forall i, j :: 0 <= i < j < |ps| ==> ps[i] != ps[j]
    requires forall q :: q in ps ==> PlainKey(q) !in m && UriKey(q) !in m
    ensures p !in ps ==> SameEntries(PutAll(m, inp, ps), m, p)
    ensures p in ps ==> HoldsSource(PutAll(m, inp, ps), inp, p)
    decreases |ps|
  {
    if |ps| > 0 {
      var q := ps[0];
      var m' := PutProperty(m, inp, q);
      forall r | r in ps[1..]
        ensures PlainKey(r) !in m' && UriKey(r) !in m'
      {
        var j :| 1 <= j < |ps| && ps[j] == r;
        KeysDistinct(r, q);
        KeysDistinct(q, r);
      }
      forall i, j | 0 <= i < j < |ps[1..]|
        ensures ps[1..][i] != ps[1..][j]
      {
        assert ps[1..][i] == ps[i + 1] && ps[1..][j] == ps[j + 1];
      }
      PutAllEntries(m', inp, ps[1..], p);
      if p == q {
        assert HoldsSource(m', inp, p);
      } else {
        KeysDistinct(p, q);
        KeysDistinct(q, p);
        assert SameEntries(m', m, p);
      }
    }
  }

  /**
   * The device-id pair is always stored, even when null. Every other property is stored
   * under both names exactly when its source is non-null, as the value and as tag + value.
   */
  lemma BuildEntries(inp: Inputs, p: Property)
    ensures p == DeviceId ==>
              && PlainKey(p) in Build(inp) && UriKey(p) in Build(inp)
              && Build(inp)[PlainKey(p)] == ResolveDeviceId(inp).deviceId
              && Build(inp)[UriKey(p)] == ResolveDeviceId(inp).orDeviceId
    ensures p != DeviceId ==> HoldsSource(Build(inp), inp, p)
  {
    var m0 := DeviceEntries(inp);
    forall q | q in TaggedProperties
      ensures PlainKey(q) !in m0 && UriKey(q) !in m0
    {
      KeysDistinct(q, DeviceId);
      KeysDistinct(DeviceId, q);
    }
    PutAllEntries(m0, inp, TaggedProperties, p);
  }

  /** The single-source blocks only ever write names from the fixed vocabulary. */
  lemma {:induction false} PutAllKeys(m: Properties, inp: Inputs, ps: seq<Property>)
    requires DeviceId !in ps
    requires m.Keys <= AllKeys
    ensures PutAll(m, inp, ps).Keys <= AllKeys
    decreases |ps|
  {
    if |ps| > 0 {
      PutAllKeys(PutProperty(m, inp, ps[0]), inp, ps[1..]);
    }
  }

  /** The table only ever holds names from the fixed vocabulary of twelve. */
  lemma BuildKeys(inp: Inputs)
    ensures Build(inp).Keys <= AllKeys
  {
    PutAllKeys(DeviceEntries(inp), inp, TaggedProperties);
  }

  /** The identity sources the device-id chain reads. */
  predicate SameDeviceSources(a: Inputs, b: Inputs) {
    && a.telephonyDeviceId == b.telephonyDeviceId
    && a.connectionInfo == b.connectionInfo
    && a.androidId == b.androidId
    && a.androidIdName == b.androidIdName
  }

  /** The sources a property's entries are computed from. */
  predicate SameSourcesFor(a: Inputs, b: Inputs, p: Property) {
    if p == DeviceId then SameDeviceSources(a, b) else Source(a, p) == Source(b, p)
  }

  /** Each property's pair of entries is determined by that property's own sources alone. */
  lemma EntriesDependOnlyOnOwnSources(a: Inputs, b: Inputs, p: Property)
    requires SameSourcesFor(a, b, p)
    ensures SameEntries(Build(a), Build(b), p)
  {
    BuildEntries(a, p);
    BuildEntries(b, p);
  }

  /** `s.contains("*") || s.contains("000000000000000")`, stated without the search. */
  ghost predicate LooksLikePlaceholder(id: string) {
    '*' in id || HasSubstring(id, InvalidDeviceId)
  }

  lemma PlaceholderMeaning(id: string)
    ensures IsPlaceholderId(id) <==> LooksLikePlaceholder(id)
  {
    ContainsSingleChar(id, '*');
  }

  /** The chain reaches the WiFi step with no device id. */
  ghost predicate NoIdBeforeWifi(inp: Inputs) {
    || inp.telephonyDeviceId.None?
    || (LooksLikePlaceholder(inp.telephonyDeviceId.value) && inp.androidId.None?)
  }

  /** The WiFi step leaves the device id null: no connection info, or no MAC address in it. */
  predicate NoMacAddress(inp: Inputs) {
    inp.connectionInfo.None? || inp.connectionInfo.value.macAddress.None?
  }

  /*
   * The branches of the device-id chain. `BuildEntries` shows that the table stores the
   * pair `ResolveDeviceId` computes under `deviceid` and `uri:deviceid`.
   */

  /** A genuine telephony id is used as it is, tagged `imei:`. */
  lemma TelephonyIdUsed(inp: Inputs, id: string)
    requires inp.telephonyDeviceId == Some(id)
    requires !LooksLikePlaceholder(id)
    ensures ResolveDeviceId(inp) == DeviceIdentity(Some(id), Some("imei:" + id))
  {
    PlaceholderMeaning(id);
  }

  /** A placeholder telephony id is replaced by a non-null secure-settings id, tagged with the setting's name. */
  lemma PlaceholderReplacedByAndroidId(inp: Inputs, id: string, androidId: string)
    requires inp.telephonyDeviceId == Some(id)
    requires LooksLikePlaceholder(id)
    requires inp.androidId == Some(androidId)
    ensures ResolveDeviceId(inp) == DeviceIdentity(Some(androidId), Some(inp.androidIdName + ":" + androidId))
  {
    PlaceholderMeaning(id);
  }

  /**
   * A placeholder telephony id whose replacement is null resolves as if there were no
   * telephony id at all: the chain goes on into the WiFi step.
   */
  lemma PlaceholderWithoutAndroidIdFallsThrough(inp: Inputs, id: string)
    requires inp.telephonyDeviceId == Some(id)
    requires LooksLikePlaceholder(id)
    requires inp.androidId.None?
    ensures FromTelephony(inp).deviceId.None?
    ensures ResolveDeviceId(inp) == ResolveDeviceId(inp.(telephonyDeviceId := None))
  {
    PlaceholderMeaning(id);
  }

  /** The chain arrives at the WiFi step with no device id exactly in the `NoIdBeforeWifi` cases. */
  lemma NoIdBeforeWifiMeaning(inp: Inputs)
    ensures FromTelephony(inp).deviceId.None? <==> NoIdBeforeWifi(inp)
  {
    if inp.telephonyDeviceId.Some? {
      PlaceholderMeaning(inp.telephonyDeviceId.value);
    }
  }

  /**
   * With no id before the WiFi step and a MAC address available, the MAC address is used,
   * tagged `mac:`, and the secure-id step leaves it alone.
   */
  lemma MacAddressUsed(inp: Inputs, mac: string)
    requires NoIdBeforeWifi(inp)
    requires inp.connectionInfo == Some(WifiInfo(Some(mac)))
    ensures ResolveDeviceId(inp) == DeviceIdentity(Some(mac), Some("mac:" + mac))
  {
    NoIdBeforeWifiMeaning(inp);
  }

  /**
   * With no id after the WiFi step, the secure-settings id is used, and its tagged form
   * replaces any `mac:null` computed before; a null secure id leaves the text "<name>:null".
   */
  lemma AndroidIdFallback(inp: Inputs)
    requires NoIdBeforeWifi(inp)
    requires NoMacAddress(inp)
    ensures ResolveDeviceId(inp).deviceId == inp.androidId
    ensures inp.androidId.Some? ==>
              ResolveDeviceId(inp).orDeviceId == Some(inp.androidIdName + ":" + inp.androidId.value)
    ensures inp.androidId.None? ==> ResolveDeviceId(inp).orDeviceId == Some(inp.androidIdName + ":null")
  {
    NoIdBeforeWifiMeaning(inp);
  }

  /**
   * The device id is null exactly when every identity source came up empty: no usable
   * telephony id, no MAC address and no secure id. Its `uri:` form is never null.
   */
  lemma DeviceIdNullExactly(inp: Inputs)
    ensures ResolveDeviceId(inp).deviceId.None? <==>
              NoIdBeforeWifi(inp) && NoMacAddress(inp) && inp.androidId.None?
    ensures ResolveDeviceId(inp).orDeviceId.Some?
  {
    NoIdBeforeWifiMeaning(inp);
  }

  /** The twelve names are exactly the plain and `uri:` names of the six properties. */
  lemma VocabularyIsPropertyNames()
    ensures forall p :: PlainKey(p) in AllKeys && UriKey(p) in AllKeys
    ensures forall k :: k in AllKeys ==> exists p :: k == PlainKey(p) || k == UriKey(p)
  {
    forall k | k in AllKeys
      ensures exists p :: k == PlainKey(p) || k == UriKey(p)
    {
      if k in {DeviceIdProperty, UriDeviceIdProperty} {
        assert k == PlainKey(DeviceId) || k == UriKey(DeviceId);
      } else if k in {SubscriberIdProperty, UriSubscriberIdProperty} {
        assert k == PlainKey(SubscriberId) || k == UriKey(SubscriberId);
      } else if k in {SimSerialProperty, UriSimSerialProperty} {
        assert k == PlainKey(SimSerial) || k == UriKey(SimSerial);
      } else if k in {PhoneNumberProperty, UriPhoneNumberProperty} {
        assert k == PlainKey(PhoneNumber) || k == UriKey(PhoneNumber);
      } else if k in {UsernameProperty, UriUsernameProperty} {
        assert k == PlainKey(Username) || k == UriKey(Username);
      } else {
        assert k == PlainKey(Email) || k == UriKey(Email);
      }
    }
  }

  /** Names that differ only in ASCII case look up the same entry. */
  lemma LookupIgnoresCase(m: Properties, a: string, b: string)
    requires EqualIgnoringCase(a, b)
    ensures Lookup(m, a) == Lookup(m, b)
  {
    LowerEqualIffEqualIgnoringCase(a, b);
  }

  /** `"DEVICEID"` and `"deviceid"` name the same property. */
  lemma LookupDeviceIdUpperCase(m: Properties)
    ensures Lookup(m, "DEVICEID") == Lookup(m, DeviceIdProperty)
  {
    assert EqualIgnoringCase("DEVICEID", DeviceIdProperty);
    LookupIgnoresCase(m, "DEVICEID", DeviceIdProperty);
  }

  /** Every property name is already in canonical (lower-case) form. */
  lemma NamesAreLowerCase(p: Property)
    ensures NoAsciiUpper(PlainKey(p)) && NoAsciiUpper(UriKey(p))
  {
    var plain, uri := PlainKey(p), UriKey(p);
    assert uri == "uri:" + plain by {
      match p
      case DeviceId =>
      case SubscriberId =>
      case SimSerial =>
      case PhoneNumber =>
      case Username =>
      case Email =>
    }
    assert forall i :: 0 <= i < |plain| ==> 'a' <= plain[i] <= 'z' by {
      match p
      case DeviceId =>
      case SubscriberId =>
      case SimSerial =>
      case PhoneNumber =>
      case Username =>
      case Email =>
    }
    forall i | 0 <= i < |uri|
      ensures !IsAsciiUpper(uri[i])
    {
      if i >= 4 {
        assert uri[i] == plain[i - 4];
      }
    }
  }

  /** What a lookup of each property name returns on the built table. */
  lemma LookupBuiltProperty(inp: Inputs, p: Property)
    ensures p == DeviceId ==>
              && Lookup(Build(inp), PlainKey(p)) == ResolveDeviceId(inp).deviceId
              && Lookup(Build(inp), UriKey(p)) == ResolveDeviceId(inp).orDeviceId
    ensures p != DeviceId ==>
              && Lookup(Build(inp), PlainKey(p)) == Source(inp, p)
              && Lookup(Build(inp), UriKey(p)) ==
                   if Source(inp, p).Some? then Some(Tag(p) + Source(inp, p).value) else None
  {
    NamesAreLowerCase(p);
    BuildEntries(inp, p);
    assert EqualIgnoringCase(PlainKey(p), PlainKey(p));
    assert EqualIgnoringCase(UriKey(p), UriKey(p));
  }

  /** A name that matches none of the twelve names, in any case, yields no value and does not fail. */
  lemma LookupUnknownName(inp: Inputs, name: string)
    requires forall k :: k in AllKeys ==> !EqualIgnoringCase(name, k)
    ensures Lookup(Build(inp), name).None?
  {
    BuildKeys(inp);
  }

  /*
   * The two lemmas below name the sample IMEI through a parameter fixed by `requires`
   * rather than writing the literal in the expressions: Dafny evaluates functions applied
   * to a literal string in full, and doing so for `Contains` and the fallback chain
   * exhausts the solver.
   */

  /** A fifteen-digit IMEI with no `*` and no run of fifteen zeros is not a placeholder. */
  lemma ExampleImeiIsGenuine(id: string)
    requires id == "356938035643809"
    ensures !IsPlaceholderId(id)
  {
    assert id[..|InvalidDeviceId|] != InvalidDeviceId by { assert id[0] != InvalidDeviceId[0]; }
    assert !Contains(id[1..], InvalidDeviceId);
    ContainsSingleChar(id, '*');
  }

  /** Such an IMEI is reported as itself and as `imei:<id>`. */
  lemma ScenarioImei(inp: Inputs, id: string)
    requires id == "356938035643809" && inp.telephonyDeviceId == Some(id)
    ensures ResolveDeviceId(inp) == DeviceIdentity(Some(id), Some("imei:" + id))
  {
    ExampleImeiIsGenuine(id);
  }

  /** The all-zero id of an invalid SIM gives way to the secure-settings id. */
  lemma ScenarioInvalidSim(inp: Inputs)
    requires inp.telephonyDeviceId == Some(InvalidDeviceId) && inp.androidId == Some("abc123")
    ensures ResolveDeviceId(inp) == DeviceIdentity(Some("abc123"), Some(inp.androidIdName + ":abc123"))
  {
    assert InvalidDeviceId[..|InvalidDeviceId|] == InvalidDeviceId;
    assert IsPlaceholderId(InvalidDeviceId);
    assert inp.androidIdName + ":" + "abc123" == inp.androidIdName + ":abc123";
  }

  /** No SIM, WiFi connected: the MAC address is the device id. */
  lemma ScenarioWifiOnly(inp: Inputs)
    requires inp.telephonyDeviceId.None? && inp.connectionInfo == Some(WifiInfo(Some("02:00:00:00:00:00")))
    ensures ResolveDeviceId(inp) == DeviceIdentity(Some("02:00:00:00:00:00"), Some("mac:02:00:00:00:00:00"))
  {
    assert "mac:" + "02:00:00:00:00:00" == "mac:02:00:00:00:00:00";
  }

  /** No SIM, no WiFi: the secure-settings id is the device id. */
  lemma ScenarioNoRadio(inp: Inputs)
    requires inp.telephonyDeviceId.None? && inp.connectionInfo.None? && inp.androidId == Some("xyz789")
    ensures ResolveDeviceId(inp) == DeviceIdentity(Some("xyz789"), Some(inp.androidIdName + ":xyz789"))
  {
    assert inp.androidIdName + ":" + "xyz789" == inp.androidIdName + ":xyz789";
  }
}
