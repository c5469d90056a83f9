/**
 * The device-property resolver: on construction it reads a fixed set of identity
 * sources and fills a flat property table with a plain key and a `uri:` key for each
 * of six logical properties; afterwards it answers case-insensitive lookups.
 *
 * The platform services (telephony, WiFi, secure settings, shared preferences) are
 * replaced by the `Inputs` record; the model takes one value per source.
 */
module PropertyManager {
  import opened Wrappers
  import opened JavaText

  // Plain property names.
  const DeviceIdProperty := "deviceid"
  const SubscriberIdProperty := "subscriberid"
  const SimSerialProperty := "simserial"
  const PhoneNumberProperty := "phonenumber"
  const UsernameProperty := "username"
  const EmailProperty := "email"

  // Resource-identifier ("uri:") property names.
  const UriDeviceIdProperty := "uri:deviceid"
  const UriSubscriberIdProperty := "uri:subscriberid"
  const UriSimSerialProperty := "uri:simserial"
  const UriPhoneNumberProperty := "uri:phonenumber"
  const UriUsernameProperty := "uri:username"
  const UriEmailProperty := "uri:email"

  /** Fifteen zeros: the device id reported by a handset with an invalid or emulated SIM. */
  const InvalidDeviceId := "000000000000000"

  /** Every name the table can hold. */
  const AllKeys: set<string> := {
    DeviceIdProperty, SubscriberIdProperty, SimSerialProperty,
    PhoneNumberProperty, UsernameProperty, EmailProperty,
    UriDeviceIdProperty, UriSubscriberIdProperty, UriSimSerialProperty,
    UriPhoneNumberProperty, UriUsernameProperty, UriEmailProperty
  }

  /** The six logical properties. */
  datatype Property = DeviceId | SubscriberId | SimSerial | PhoneNumber | Username | Email

  function PlainKey(p: Property): string {
    match p
    case DeviceId => DeviceIdProperty
    case SubscriberId => SubscriberIdProperty
    case SimSerial => SimSerialProperty
    case PhoneNumber => PhoneNumberProperty
    case Username => UsernameProperty
    case Email => EmailProperty
  }

  function UriKey(p: Property): string {
    match p
    case DeviceId => UriDeviceIdProperty
    case SubscriberId => UriSubscriberIdProperty
    case SimSerial => UriSimSerialProperty
    case PhoneNumber => UriPhoneNumberProperty
    case Username => UriUsernameProperty
    case Email => UriEmailProperty
  }

  /** The scheme tag of a property read from a single source; the device id's tag depends on the branch taken. */
  function Tag(p: Property): string
    requires p != DeviceId
  {
    match p
    case SubscriberId => "imsi:"
    case SimSerial => "simserial:"
    case PhoneNumber => "tel:"
    case Username => "username:"
    case Email => "mailto:"
  }

  /** The WiFi connection info; its MAC address may itself be null. */
  datatype WifiInfo = WifiInfo(macAddress: Option<string>)

  /**
   * What the platform services and the preference store return; the model takes one
   * value per source, also for the secure setting the chain may read twice.
   */
  datatype Inputs = Inputs(
    telephonyDeviceId: Option<string>,
    subscriberId: Option<string>,
    simSerialNumber: Option<string>,
    line1Number: Option<string>,
    connectionInfo: Option<WifiInfo>,
    androidId: Option<string>,      // the secure-settings identifier
    androidIdName: string,          // the name of that setting, used as its scheme
    username: Option<string>,       // the "username" preference
    account: Option<string>         // the "account" preference
  )

  /** The source of a single-source property. */
  function Source(inp: Inputs, p: Property): Option<string>
    requires p != DeviceId
  {
    match p
    case SubscriberId => inp.subscriberId
    case SimSerial => inp.simSerialNumber
    case PhoneNumber => inp.line1Number
    case Username => inp.username
    case Email => inp.account
  }

  /** The property table: Java's map from names to possibly-null values. */
  type Properties = map<string, Option<string>>

  /** The pair of local variables `deviceId` / `orDeviceId` of the resolution chain. */
  datatype DeviceIdentity = DeviceIdentity(deviceId: Option<string>, orDeviceId: Option<string>)

  /** A telephony device id that the resolver discards as a placeholder. */
  predicate IsPlaceholderId(id: string) {
    Contains(id, "*") || Contains(id, InvalidDeviceId)
  }

  /** The secure-settings identifier together with its scheme-prefixed form. */
  function AndroidIdentity(inp: Inputs): DeviceIdentity {
    DeviceIdentity(inp.androidId, Some(Concat(inp.androidIdName + ":", inp.androidId)))
  }

  /** First step: the telephony device id, replaced by the secure id when it is a placeholder. */
  function FromTelephony(inp: Inputs): DeviceIdentity {
    match inp.telephonyDeviceId
    case None => DeviceIdentity(None, None)
    case Some(id) =>
      if IsPlaceholderId(id) then AndroidIdentity(inp)
      else DeviceIdentity(Some(id), Some("imei:" + id))
  }

  /** Second step: with no id yet and WiFi connection info present, the MAC address. */
  function FromWifi(inp: Inputs, d: DeviceIdentity): DeviceIdentity {
    if d.deviceId.None? && inp.connectionInfo.Some? then
      var mac := inp.connectionInfo.value.macAddress;
      DeviceIdentity(mac, Some(Concat("mac:", mac)))
    else
      d
  }

  /** Last step: with still no id, the secure-settings identifier. */
  function FromAndroidId(inp: Inputs, d: DeviceIdentity): DeviceIdentity {
    if d.deviceId.None? then AndroidIdentity(inp) else d
  }

  /**
   * The whole fallback chain. Whatever branch is taken, the prefixed form is present and
   * is one of the three schemes followed by the plain value (or the text "null"), and a
   * plain value comes from one of the three identity sources.
   */
  function ResolveDeviceId(inp: Inputs): (d: DeviceIdentity)
    ensures d.orDeviceId.Some?
    ensures || d.orDeviceId.value == "imei:" + NullableText(d.deviceId)
            || d.orDeviceId.value == "mac:" + NullableText(d.deviceId)
            || d.orDeviceId.value == inp.androidIdName + ":" + NullableText(d.deviceId)
    ensures d.deviceId.None? ==> d.orDeviceId.value == inp.androidIdName + ":null"
    ensures d.deviceId.Some? ==>
              || d.deviceId == inp.telephonyDeviceId
              || d.deviceId == inp.androidId
              || (inp.connectionInfo.Some? && d.deviceId == inp.connectionInfo.value.macAddress)
  {
    FromAndroidId(inp, FromWifi(inp, FromTelephony(inp)))
  }

  /** Stores `value` and `tag + value` under the two names when `value` is not null. */
  function PutTagged(m: Properties, key: string, uriKey: string, tag: string, value: Option<string>): (r: Properties)
    requires key != uriKey
    ensures value.None? ==> r == m
    ensures value.Some? ==> key in r && r[key] == value && uriKey in r && r[uriKey] == Some(tag + value.value)
    ensures r.Keys <= m.Keys + {key, uriKey}
    ensures forall k :: k != key && k != uriKey ==> (k in r <==> k in m) && (k in m ==> r[k] == m[k])
  {
    if value.Some? then m[key := value][uriKey := Some(tag + value.value)] else m
  }

  /** The single-source properties, in the order the constructor reads them. */
  const TaggedProperties: seq<Property> := [SubscriberId, SimSerial, PhoneNumber, Username, Email]

  /** One of the five "read, and store both names if non-null" blocks. */
  function PutProperty(m: Properties, inp: Inputs, p: Property): Properties
    requires p != DeviceId
  {
    KeysDistinct(p, p);
    PutTagged(m, PlainKey(p), UriKey(p), Tag(p), Source(inp, p))
  }

  /** The blocks for `ps`, run in order. */
  function PutAll(m: Properties, inp: Inputs, ps: seq<Property>): Properties
    requires DeviceId !in ps
    decreases |ps|
  {
    if |ps| == 0 then m else PutAll(PutProperty(m, inp, ps[0]), inp, ps[1..])
  }

  /** The device-id pair, stored even when its values are null. */
  function DeviceEntries(inp: Inputs): Properties {
    var d := ResolveDeviceId(inp);
    map[DeviceIdProperty := d.deviceId, UriDeviceIdProperty := d.orDeviceId]
  }

  /** The table the constructor builds; what it holds per property is stated by `BuildEntries`. */
  function Build(inp: Inputs): (r: Properties)
    ensures r.Keys <= AllKeys
  {
    PutAll(DeviceEntries(inp), inp, TaggedProperties)
  }

  /** No two properties share a name, and no plain name is a `uri:` name: each key has one writer. */
  lemma KeysDistinct(p: Property, q: Property)
    ensures PlainKey(p) != UriKey(q)
    ensures p != q ==> PlainKey(p) != PlainKey(q) && UriKey(p) != UriKey(q)
  {
  }

  /**
   * `getSingularProperty`: lower-case the name and look it up exactly. A name that is
   * absent, or whose value is null, yields `None`; nothing fails.
   */
  function Lookup(m: Properties, name: string): (r: Option<string>)
    ensures forall k :: k in m && NoAsciiUpper(k) && EqualIgnoringCase(name, k) ==> r == m[k]
    ensures (forall k :: k in m ==> !EqualIgnoringCase(name, k)) ==> r.None?
  {
    var key := ToLowerEnglish(name);
    LookupMatchesCanonical(m, name);
    if key in m then m[key] else None
  }

  /** A canonical (lower-case) name equal to `name` up to case is `name` lower-cased. */
  lemma LookupMatchesCanonical(m: Properties, name: string)
    ensures forall k :: k in m && NoAsciiUpper(k) && EqualIgnoringCase(name, k) ==> k == ToLowerEnglish(name)
  {
    forall k | k in m && NoAsciiUpper(k) && EqualIgnoringCase(name, k)
      ensures k == ToLowerEnglish(name)
    {
      LowerEqualIffEqualIgnoringCase(name, k);
    }
  }
}
