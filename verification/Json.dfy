/**
  JSON values and the typed field reader used by the configuration loader.  Reading succeeds when the
  value is an object, the member exists, has the wanted type and, for numbers, is an integer in the
  inclusive range; otherwise it fails.  A number that is no integer reads like a value of a wrong type, and
  is not told apart from one.

  Member names are constructors: `Port` is the member "port", `OtherKey` any name the application
  never reads.
 */
module JsonValues {
  import opened Wrappers

  datatype Key =
    | Streams | MainStream | SubStream | CodecName
    | AdvertiseIp | DefaultIfname
    | Port | StaticRoot | AuthRequired | MaxSessions
    | Enabled | JpegQuality | TimeoutMs
    | PreferTcp | LocalPortBase | MaxPeers | PublicIp | IceServers | Url | Username | Credential
    | DeviceServicePort | DiscoveryPort | DiscoveryEnabled | Manufacturer | Model
    | OtherKey(name: string)

  datatype Json =
    | JNull
    | JBool(flag: bool)
    | JNumber(number: int)
    | JString(text: string)
    | JArray(items: seq<Json>)
    | JObject(members: map<Key, Json>)
  {
    predicate Contains(key: Key) {
      JObject? && key in members
    }
  }

  function ReadString(json: Json, key: Key): Option<string> {
    if json.Contains(key) && json.members[key].JString? then Some(json.members[key].text) else None
  }

  function ReadBool(json: Json, key: Key): Option<bool> {
    if json.Contains(key) && json.members[key].JBool? then Some(json.members[key].flag) else None
  }

  function ReadUint(json: Json, key: Key, low: nat, high: nat): (result: Option<nat>)
    ensures result.Some? ==> low <= result.value <= high
  {
    if json.Contains(key) && json.members[key].JNumber? && low <= json.members[key].number <= high
    then Some(json.members[key].number)
    else None
  }
}
