# Device-property resolver of ODK Survey, in Dafny

ODK Survey's `PropertyManager` gives form templates a few device and user identities:
device id, subscriber id, SIM serial, phone number, username and e-mail. When it is
constructed it reads the identity sources in a fixed order. The telephony id, the
subscriber id, SIM serial, line number and both preferences are read on every run; the
WiFi info and the secure setting are read only when the device-id chain needs them, and
the secure setting can be read twice. It fills a flat table with a plain
name (`deviceid`) and a resource-identifier name (`uri:deviceid`) for each of these
six logical properties. After that it only answers lookups, which ignore case.

The model makes the constructor a pure function and the lookup a second one:

- `Inputs` holds what the platform services returned, one value per source, as optional strings. These are the
  telephony device id, subscriber id, SIM serial and line-1 number; the WiFi connection
  info (optional, and holding an optional MAC address); the secure-settings id and the
  name of that setting; and the `username` and `account` preferences.
- `PropertyManager.Build` returns the table as `map<string, Option<string>>`, where
  `None` is Java's `null`. It runs the device-id fallback chain
  (`FromTelephony`, `FromWifi`, `FromAndroidId`), stores the device-id pair, and then
  runs the five "store both names if non-null" blocks in source order.
  `PropertyFacts.BuildEntries` shows that the table holds the pair `ResolveDeviceId`
  computes under `deviceid` and `uri:deviceid`. The branch lemmas describe that pair.
- `PropertyManager.Lookup` lower-cases the name and looks it up exactly.
- `JavaText` models the `java.lang.String` behaviour the code depends on. That is
  `contains` as a substring search, `+` with a null operand (which appends the text
  `"null"`), and lower-casing under the English locale.

Modules: `Wrappers` (the `Option` type), `JavaText`, `PropertyManager` (names, inputs,
fallback chain, table, lookup) and `PropertyFacts` (the lemmas about them).

The model follows the code in three places where its behaviour is easy to misread:

- A telephony id is treated as a placeholder when it *contains* `*` or fifteen zeros, not
  only when it equals fifteen zeros (PropertyManager.java line 79).
- The `"mac:null"` value never survives. When the WiFi info has no MAC address, the last
  step (lines 104-108) runs and overwrites it with `<setting name>:` followed by the
  secure id. If that id is null too, the stored value is the text `"<setting name>:null"`.
- `deviceid` and `uri:deviceid` are always keys of the table (lines 110-111). When no
  source gave an id, `deviceid` holds `null`, and `uri:deviceid` holds
  `"<setting name>:null"`. A lookup of `deviceid` then returns nothing, as it would
  for a missing key.

## Model

| member | source | states |
|---|---|---|
| `JavaText.Contains` | ODKSurvey/src/org/opendatakit/survey/android/logic/PropertyManager.java:79 | `s.contains(t)` is true exactly when `t` occurs in `s` at some position |
| `JavaText.ContainsSingleChar` | ODKSurvey/src/org/opendatakit/survey/android/logic/PropertyManager.java:79 | `contains("*")` is membership of the character `*` |
| `JavaText.ToLowerEnglish` | ODKSurvey/src/org/opendatakit/survey/android/logic/PropertyManager.java:148 | the lowered name has no upper-case letter, equals the input up to case, and a name already in lower case is unchanged |
| `JavaText.LowerEqualIffEqualIgnoringCase` | ODKSurvey/src/org/opendatakit/survey/android/logic/PropertyManager.java:148 | two names lower-case to the same name if and only if they are equal up to ASCII case |
| `JavaText.Concat` | ODKSurvey/src/org/opendatakit/survey/android/logic/PropertyManager.java:99 | Java `+` with a possibly-null operand gives the prefix followed by the value, or by the text `null` |
| `PropertyManager.ResolveDeviceId` | ODKSurvey/src/org/opendatakit/survey/android/logic/PropertyManager.java:76-108 | the chain is `FromTelephony` (lines 76-87, with the placeholder test `IsPlaceholderId` of line 79), then `FromWifi` (lines 89-101), then `FromAndroidId` (lines 104-108); after the chain the `uri:` form is never null; it is `imei:`, `mac:` or `<setting name>:` followed by the plain id (or `null`); a null id leaves `<setting name>:null`; a non-null id comes from the telephony id, the MAC address or the secure id |
| `PropertyManager.Build` | ODKSurvey/src/org/opendatakit/survey/android/logic/PropertyManager.java:67-144 | the constructor's table holds only names from the twelve constants; its entries per property are stated by `PropertyFacts.BuildEntries` |
| `PropertyManager.PutTagged` | ODKSurvey/src/org/opendatakit/survey/android/logic/PropertyManager.java:115-119 | a null value stores nothing; a non-null one stores the value and tag + value under the two names and changes no other name |
| `PropertyManager.Lookup` | ODKSurvey/src/org/opendatakit/survey/android/logic/PropertyManager.java:146-149 | returns the entry of the stored lower-case name equal to the given name up to case, and nothing when no stored name matches |
| `PropertyManager.KeysDistinct` | ODKSurvey/src/org/opendatakit/survey/android/logic/PropertyManager.java:46-58 | no two properties share a plain or a `uri:` name, and no plain name is a `uri:` name |
| `PropertyFacts.PutAllEntries` | ODKSurvey/src/org/opendatakit/survey/android/logic/PropertyManager.java:113-143 | the five blocks leave other properties' entries alone and give each block's property exactly the entries its own source dictates |
| `PropertyFacts.BuildEntries` | ODKSurvey/src/org/opendatakit/survey/android/logic/PropertyManager.java:110-143 | both device-id names are always stored, even when null; every other property's plain and `uri:` names are present if and only if its source is non-null, holding the value and tag + value |
| `PropertyFacts.PutAllKeys` | ODKSurvey/src/org/opendatakit/survey/android/logic/PropertyManager.java:113-143 | the five blocks only write names from the fixed vocabulary |
| `PropertyFacts.BuildKeys` | ODKSurvey/src/org/opendatakit/survey/android/logic/PropertyManager.java:110-143 | the table's names are a subset of the twelve constants |
| `PropertyFacts.VocabularyIsPropertyNames` | ODKSurvey/src/org/opendatakit/survey/android/logic/PropertyManager.java:46-58 | the twelve constants are exactly the plain and `uri:` names of the six properties |
| `PropertyFacts.EntriesDependOnlyOnOwnSources` | ODKSurvey/src/org/opendatakit/survey/android/logic/PropertyManager.java:110-143 | a property's two entries are determined by its own sources alone, so no name is written from another property's source |
| `PropertyFacts.PlaceholderMeaning` | ODKSurvey/src/org/opendatakit/survey/android/logic/PropertyManager.java:79 | the placeholder test holds exactly when the id contains `*` or has fifteen consecutive zeros somewhere |
| `PropertyFacts.TelephonyIdUsed` | ODKSurvey/src/org/opendatakit/survey/android/logic/PropertyManager.java:76-86 | a non-null telephony id that is not a placeholder resolves to itself and `imei:` + id |
| `PropertyFacts.PlaceholderReplacedByAndroidId` | ODKSurvey/src/org/opendatakit/survey/android/logic/PropertyManager.java:78-83 | a placeholder id with a non-null secure id resolves to that secure id and `<setting name>:` + secure id |
| `PropertyFacts.PlaceholderWithoutAndroidIdFallsThrough` | ODKSurvey/src/org/opendatakit/survey/android/logic/PropertyManager.java:79-101 | a placeholder id whose replacement is null leaves the id null after the first step and resolves exactly as a missing telephony id, so the WiFi step runs |
| `PropertyFacts.NoIdBeforeWifiMeaning` | ODKSurvey/src/org/opendatakit/survey/android/logic/PropertyManager.java:76-89 | the id is still null on reaching the WiFi step if and only if the telephony id is null, or is a placeholder whose replacement secure id is null |
| `PropertyFacts.MacAddressUsed` | ODKSurvey/src/org/opendatakit/survey/android/logic/PropertyManager.java:89-101 | with no id before the WiFi step and a MAC address present, the result is the MAC address and `mac:` + MAC; the secure-id step does not change it |
| `PropertyFacts.AndroidIdFallback` | ODKSurvey/src/org/opendatakit/survey/android/logic/PropertyManager.java:104-108 | with still no id after the WiFi step, the result is the secure id, and its tagged form replaces any `mac:null`; a null secure id leaves `<setting name>:null` |
| `PropertyFacts.DeviceIdNullExactly` | ODKSurvey/src/org/opendatakit/survey/android/logic/PropertyManager.java:76-111 | the resolved device id is null if and only if no source gave a usable id, and the `uri:` form is never null |
| `PropertyFacts.NamesAreLowerCase` | ODKSurvey/src/org/opendatakit/survey/android/logic/PropertyManager.java:46-58 | every plain and `uri:` property name has no ASCII upper-case letter |
| `PropertyFacts.LookupIgnoresCase` | ODKSurvey/src/org/opendatakit/survey/android/logic/PropertyManager.java:146-149 | names that differ only in ASCII case give the same lookup result |
| `PropertyFacts.LookupDeviceIdUpperCase` | ODKSurvey/src/org/opendatakit/survey/android/logic/PropertyManager.java:148 | `DEVICEID` and `deviceid` give the same result |
| `PropertyFacts.LookupBuiltProperty` | ODKSurvey/src/org/opendatakit/survey/android/logic/PropertyManager.java:110-149 | looking up a property's plain or `uri:` name returns its resolved value, or nothing when the source was null |
| `PropertyFacts.LookupUnknownName` | ODKSurvey/src/org/opendatakit/survey/android/logic/PropertyManager.java:146-149 | a non-null name that matches none of the twelve names, in any case, yields nothing and never fails |
| `PropertyFacts.ExampleImeiIsGenuine` | ODKSurvey/src/org/opendatakit/survey/android/logic/PropertyManager.java:79 | `356938035643809` is not a placeholder |
| `PropertyFacts.ScenarioImei` | ODKSurvey/src/org/opendatakit/survey/android/logic/PropertyManager.java:76-86 | the IMEI `356938035643809` resolves to itself and `imei:356938035643809` |
| `PropertyFacts.ScenarioInvalidSim` | ODKSurvey/src/org/opendatakit/survey/android/logic/PropertyManager.java:78-83 | the id `000000000000000` with secure id `abc123` resolves to `abc123` and `<setting name>:abc123` |
| `PropertyFacts.ScenarioWifiOnly` | ODKSurvey/src/org/opendatakit/survey/android/logic/PropertyManager.java:89-101 | no telephony id and MAC `02:00:00:00:00:00` resolves to that MAC and `mac:02:00:00:00:00:00` |
| `PropertyFacts.ScenarioNoRadio` | ODKSurvey/src/org/opendatakit/survey/android/logic/PropertyManager.java:104-108 | no telephony id, no WiFi info and secure id `xyz789` resolves to `xyz789` and `<setting name>:xyz789` |

## Left out

- The Android services (`getSystemService`, `TelephonyManager`, `WifiManager`/`WifiInfo`, `Settings.Secure.getString`, `PreferenceManager`/`SharedPreferences`) are not modelled. Their results are the fields of `Inputs`.
- The secure setting is read at two places (lines 80 and 105), and on one path both reads happen: a placeholder telephony id, a null secure id and no MAC address. The model takes a single value (`androidId`) for both reads, assuming the setting does not change during construction.
- `Settings.Secure.ANDROID_ID`, the setting's name, is an input (`androidIdName`), not a fixed text.
- The `Log.i` call and the stored `mContext`/`mTelephonyManager` handles are not modelled: they do not affect the table.
- The application-wide singleton through which callers reach the resolver is not modelled; `Build` is called explicitly.
- There is no concurrency to model: the table is built once and then only read.
- JavaText.ToLowerEnglish: lowers ASCII letters only and leaves every other character as it is. `toLowerCase(Locale.ENGLISH)` also lowers non-ASCII letters. All property names are ASCII, so lookups of them are unaffected.
- PropertyManager.Lookup: takes a non-null name. `getSingularProperty(null)` throws a NullPointerException at line 148, and that error path is not modelled.
- PropertyManager.Build: the platform services are assumed present. A null `WifiManager` makes line 96 throw; that is not modelled.
- PropertyManager.Lookup: like `HashMap.get`, it does not distinguish a missing name from a name stored with `null`. The table itself keeps that difference (`None` value versus missing key).
