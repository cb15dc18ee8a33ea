/**
  The loader as it is written: one structure is filled field by field, each section's method may
  leave it half filled when it gives up, and only a complete structure is copied out.
  A C++ structure passed by reference becomes an in-parameter and an out-parameter.
 */
module ConfigLoader {
  import opened Wrappers
  import opened JsonValues
  import opened AppConfiguration

  /** The stored sections; reading a section that was never stored yields JSON null. */
  type Store = map<Section, Json>

  function Get(store: Store, section: Section): Json {
    if section in store then store[section] else JNull
  }

  /** `config` with the part a view describes replaced. */
  function Put(view: View, config: AppConfig): AppConfig {
    match view
    case VideoView(main, sub) => config.(rtspMainCodec := main, rtspSubCodec := sub)
    case NetworkView(host, ifname) => config.(advertiseHost := host, networkIfname := ifname)
    case HttpView(port, root) => config.(httpPort := port, staticRoot := root)
    case RtspView(port, auth, sessions) =>
      config.(rtspPort := port, rtspAuthRequired := auth, rtspMaxSessions := sessions)
    case SnapshotView => config
    case WebrtcView(enabled, tcp, base, peers, ip, ice) =>
      config.(webrtcEnabled := enabled, webrtcPreferTcp := tcp, webrtcLocalPortBase := base,
              webrtcMaxPeers := peers, webrtcPublicIp := ip, webrtcIceServers := ice)
    case OnvifView(device, discovery, enabled, auth, maker, model) =>
      config.(onvifDevicePort := device, onvifDiscoveryPort := discovery, onvifDiscoveryEnabled := enabled,
              onvifAuthRequired := auth, onvifManufacturer := maker, onvifModel := model)
    case UnknownView => config
  }

  /** Filling the default configuration section by section, in any state of the other fields, assembles it. */
  lemma PuttingAssembles(video: View, network: View, http: View, rtsp: View, webrtc: View, onvif: View)
    requires video.VideoView? && network.NetworkView? && http.HttpView?
    requires rtsp.RtspView? && webrtc.WebrtcView? && onvif.OnvifView?
    ensures Put(onvif, Put(webrtc, Put(rtsp, Put(http, Put(network, Put(video, DEFAULT_CONFIG)))))) ==
            Assemble(video, network, http, rtsp, webrtc, onvif)
  {
  }

  lemma LoadedByPutting(root: Root, config: AppConfig)
    requires Complete(root)
    requires ParseVideo(root.members[Video]).Some? && ParseHttp(root.members[Http]).Some?
    requires ParseNetwork(root.members[Network], DEFAULT_CONFIG.networkIfname).Some?
    requires ParseRtsp(root.members[Rtsp]).Some? && ParseSnapshot(root.members[Snapshot]).Some?
    requires ParseWebrtc(root.members[Webrtc], DEFAULT_CONFIG.webrtcPublicIp).Some?
    requires ParseOnvif(root.members[Onvif]).Some?
    requires config ==
      Put(ParseOnvif(root.members[Onvif]).value,
        Put(ParseWebrtc(root.members[Webrtc], DEFAULT_CONFIG.webrtcPublicIp).value,
          Put(ParseRtsp(root.members[Rtsp]).value,
            Put(ParseHttp(root.members[Http]).value,
              Put(ParseNetwork(root.members[Network], DEFAULT_CONFIG.networkIfname).value,
                Put(ParseVideo(root.members[Video]).value, DEFAULT_CONFIG))))))
    ensures Load(root) == Some(config)
  {
    PuttingAssembles(ParseVideo(root.members[Video]).value,
                     ParseNetwork(root.members[Network], DEFAULT_CONFIG.networkIfname).value,
                     ParseHttp(root.members[Http]).value, ParseRtsp(root.members[Rtsp]).value,
                     ParseWebrtc(root.members[Webrtc], DEFAULT_CONFIG.webrtcPublicIp).value,
                     ParseOnvif(root.members[Onvif]).value);
  }

  method ParseRtspCodec(value: string, codec: Codec) returns (ok: bool, codec': Codec)
    ensures ok == ParseCodec(value).Some?
    ensures codec' == if ok then ParseCodec(value).value else codec
  {
    codec' := codec;
    if value == "h265" {
      return true, H265;
    }
    if value == "h264" {
      return true, H264;
    }
    return false, codec';
  }

  method ApplyRtspCodecConfig(video: Json, config: AppConfig) returns (ok: bool, config': AppConfig)
    ensures ok == ParseVideo(video).Some?
    ensures ok ==> config' == Put(ParseVideo(video).value, config)
  {
    config' := config;
    if !video.JObject? {
      return false, config';
    }
    if !video.Contains(Streams) || !video.members[Streams].JObject? {
      return false, config';
    }
    var streams := video.members[Streams];
    if || !streams.Contains(MainStream) || !streams.members[MainStream].JObject?
       || !streams.Contains(SubStream) || !streams.members[SubStream].JObject? {
      return false, config';
    }
    var main := streams.members[MainStream];
    var sub := streams.members[SubStream];
    var codec := ReadString(main, CodecName);
    if codec.None? {
      return false, config';
    }
    var parsed, mainCodec := ParseRtspCodec(codec.value, config'.rtspMainCodec);
    config' := config'.(rtspMainCodec := mainCodec);
    if !parsed {
      return false, config';
    }
    codec := ReadString(sub, CodecName);
    if codec.None? {
      return false, config';
    }
    var parsedSub, subCodec := ParseRtspCodec(codec.value, config'.rtspSubCodec);
    config' := config'.(rtspSubCodec := subCodec);
    return parsedSub, config';
  }

  method ApplyNetworkConfig(network: Json, config: AppConfig) returns (ok: bool, config': AppConfig)
    ensures ok == ParseNetwork(network, config.networkIfname).Some?
    ensures ok ==> config' == Put(ParseNetwork(network, config.networkIfname).value, config)
  {
    config' := config;
    if !network.JObject? {
      return false, config';
    }
    var host := ReadString(network, AdvertiseIp);
    if host.None? {
      return false, config';
    }
    config' := config'.(advertiseHost := host.value);
    if config'.advertiseHost == "" {
      return false, config';
    }
    var ifname := ReadString(network, DefaultIfname);
    if ifname.Some? {
      if ifname.value != "" {
        config' := config'.(networkIfname := ifname.value);
      }
    }
    return true, config';
  }

  method ApplyHttpConfig(http: Json, config: AppConfig) returns (ok: bool, config': AppConfig)
    ensures ok == ParseHttp(http).Some?
    ensures ok ==> config' == Put(ParseHttp(http).value, config)
  {
    config' := config;
    if !http.JObject? {
      return false, config';
    }
    var port := ReadUint(http, Port, 1, MAX_PORT);
    if port.None? {
      return false, config';
    }
    config' := config'.(httpPort := port.value);
    var root := ReadString(http, StaticRoot);
    if root.None? {
      return false, config';
    }
    config' := config'.(staticRoot := root.value);
    return config'.staticRoot != "", config';
  }

  method ApplyRtspConfig(rtsp: Json, config: AppConfig) returns (ok: bool, config': AppConfig)
    ensures ok == ParseRtsp(rtsp).Some?
    ensures ok ==> config' == Put(ParseRtsp(rtsp).value, config)
  {
    config' := config;
    if !rtsp.JObject? {
      return false, config';
    }
    var port := ReadUint(rtsp, Port, 1, MAX_PORT);
    if port.None? {
      return false, config';
    }
    config' := config'.(rtspPort := port.value);
    var auth := ReadBool(rtsp, AuthRequired);
    if auth.None? {
      return false, config';
    }
    config' := config'.(rtspAuthRequired := auth.value);
    var sessions := ReadUint(rtsp, MaxSessions, 1, MAX_UINT32);
    if sessions.None? {
      return false, config';
    }
    config' := config'.(rtspMaxSessions := sessions.value);
    return true, config';
  }

  method ApplySnapshotConfig(snapshot: Json) returns (ok: bool)
    ensures ok == ParseSnapshot(snapshot).Some?
  {
    if !snapshot.JObject? {
      return false;
    }
    if ReadBool(snapshot, Enabled).None? {
      return false;
    }
    if ReadUint(snapshot, JpegQuality, 1, 100).None? {
      return false;
    }
    if ReadUint(snapshot, TimeoutMs, 1, MAX_UINT32).None? {
      return false;
    }
    return true;
  }

  lemma {:induction false} BadServerSpoilsList(items: seq<Json>, i: nat)
    requires i < |items| && ParseIceServer(items[i]).None?
    ensures ParseIceServers(items).None?
  {
    IceServersInOrder(items);
    assert items[i] in items;
  }

  method ReadIceServers(items: seq<Json>) returns (ok: bool, servers: seq<IceServer>)
    ensures ok == ParseIceServers(items).Some?
    ensures ok ==> servers == ParseIceServers(items).value
  {
    servers := [];
    for i := 0 to |items|
      invariant ParseIceServers(items[..i]) == Some(servers)
    {
      var item := items[i];
      assert items[..i + 1][..i] == items[..i];
      if !item.JObject? {
        BadServerSpoilsList(items, i);
        return false, servers;
      }
      var url := ReadString(item, Url);
      if url.None? {
        BadServerSpoilsList(items, i);
        return false, servers;
      }
      var username := ReadString(item, Username);
      if username.None? {
        BadServerSpoilsList(items, i);
        return false, servers;
      }
      var credential := ReadString(item, Credential);
      if credential.None? {
        BadServerSpoilsList(items, i);
        return false, servers;
      }
      servers := servers + [IceServer(url.value, username.value, credential.value)];
    }
    assert items[..|items|] == items;
    return true, servers;
  }

  method ReadIceMember(webrtc: Json, config: AppConfig) returns (ok: bool, config': AppConfig)
    ensures ok == ParseIceMember(webrtc).Some?
    ensures ok ==> config' == config.(webrtcIceServers := ParseIceMember(webrtc).value)
  {
    config' := config;
    if !webrtc.Contains(IceServers) || !webrtc.members[IceServers].JArray? {
      return false, config';
    }
    var read, servers := ReadIceServers(webrtc.members[IceServers].items);
    config' := config'.(webrtcIceServers := servers);
    return read, config';
  }

  method ReadPublicIp(webrtc: Json, defaultIp: string) returns (ok: bool, publicIp: string)
    ensures ok == ParsePublicIp(webrtc, defaultIp).Some?
    ensures ok ==> publicIp == ParsePublicIp(webrtc, defaultIp).value
  {
    publicIp := defaultIp;
    if webrtc.Contains(PublicIp) {
      var read := ReadString(webrtc, PublicIp);
      if read.None? {
        return false, publicIp;
      }
      publicIp := read.value;
    }
    return true, publicIp;
  }

  method ApplyWebrtcConfig(webrtc: Json, config: AppConfig) returns (ok: bool, config': AppConfig)
    ensures ok == ParseWebrtc(webrtc, config.webrtcPublicIp).Some?
    ensures ok ==> config' == Put(ParseWebrtc(webrtc, config.webrtcPublicIp).value, config)
  {
    config' := config;
    if !webrtc.JObject? {
      return false, config';
    }
    var publicIp := config'.webrtcPublicIp;
    var enabled := ReadBool(webrtc, Enabled);
    if enabled.None? {
      return false, config';
    }
    config' := config'.(webrtcEnabled := enabled.value);
    var preferTcp := ReadBool(webrtc, PreferTcp);
    if preferTcp.None? {
      return false, config';
    }
    config' := config'.(webrtcPreferTcp := preferTcp.value);
    var portBase := ReadUint(webrtc, LocalPortBase, 1, MAX_PORT);
    if portBase.None? {
      return false, config';
    }
    config' := config'.(webrtcLocalPortBase := portBase.value);
    var maxPeers := ReadUint(webrtc, MaxPeers, 1, MAX_UINT32);
    if maxPeers.None? {
      return false, config';
    }
    config' := config'.(webrtcMaxPeers := maxPeers.value);
    ok, publicIp := ReadPublicIp(webrtc, publicIp);
    if !ok {
      return false, config';
    }
    config' := config'.(webrtcPublicIp := publicIp);
    ok, config' := ReadIceMember(webrtc, config');
  }

  method ApplyOnvifConfig(onvif: Json, config: AppConfig) returns (ok: bool, config': AppConfig)
    ensures ok == ParseOnvif(onvif).Some?
    ensures ok ==> config' == Put(ParseOnvif(onvif).value, config)
  {
    config' := config;
    if !onvif.JObject? {
      return false, config';
    }
    var devicePort := ReadUint(onvif, DeviceServicePort, 1, MAX_PORT);
    if devicePort.None? {
      return false, config';
    }
    config' := config'.(onvifDevicePort := devicePort.value);
    var discoveryPort := ReadUint(onvif, DiscoveryPort, 1, MAX_PORT);
    if discoveryPort.None? {
      return false, config';
    }
    config' := config'.(onvifDiscoveryPort := discoveryPort.value);
    var discoveryEnabled := ReadBool(onvif, DiscoveryEnabled);
    if discoveryEnabled.None? {
      return false, config';
    }
    config' := config'.(onvifDiscoveryEnabled := discoveryEnabled.value);
    var auth := ReadBool(onvif, AuthRequired);
    if auth.None? {
      return false, config';
    }
    config' := config'.(onvifAuthRequired := auth.value);
    var advertiseIp := ReadString(onvif, AdvertiseIp);
    if advertiseIp.None? || advertiseIp.value == "" {
      return false, config';
    }
    var manufacturer := ReadString(onvif, Manufacturer);
    if manufacturer.None? {
      return false, config';
    }
    config' := config'.(onvifManufacturer := manufacturer.value);
    var model := ReadString(onvif, Model);
    if model.None? {
      return false, config';
    }
    config' := config'.(onvifModel := model.value);
    return true, config';
  }

  /** All or nothing: the caller's structure is replaced by what the root describes, or left alone. */
  method LoadAppConfigFromRoot(root: Root, appConfig: AppConfig) returns (ok: bool, appConfig': AppConfig)
    ensures ok == Load(root).Some?
    ensures appConfig' == if ok then Load(root).value else appConfig
  {
    appConfig' := appConfig;
    if !root.Sections? {
      return false, appConfig';
    }
    var config := DEFAULT_CONFIG;
    if || Video !in root.members || Network !in root.members || Http !in root.members
       || Rtsp !in root.members || Snapshot !in root.members || Webrtc !in root.members
       || Onvif !in root.members {
      return false, appConfig';
    }
    ok, config := ApplyRtspCodecConfig(root.members[Video], config);
    if !ok {
      return false, appConfig';
    }
    ok, config := ApplyNetworkConfig(root.members[Network], config);
    if !ok {
      return false, appConfig';
    }
    ok, config := ApplyHttpConfig(root.members[Http], config);
    if !ok {
      return false, appConfig';
    }
    ok, config := ApplyRtspConfig(root.members[Rtsp], config);
    if !ok {
      return false, appConfig';
    }
    ok := ApplySnapshotConfig(root.members[Snapshot]);
    if !ok {
      return false, appConfig';
    }
    ok, config := ApplyWebrtcConfig(root.members[Webrtc], config);
    if !ok {
      return false, appConfig';
    }
    ok, config := ApplyOnvifConfig(root.members[Onvif], config);
    if !ok {
      return false, appConfig';
    }
    LoadedByPutting(root, config);
    return true, config;
  }

  /** What the next root holds for a section: the new value for `scope`, the stored one for the rest. */
  function Pick(store: Store, scope: Section, value: Json, section: Section): Json {
    if section == scope then value else Get(store, section)
  }

  /** The root built from the store with one section replaced (none, for a name outside the seven). */
  function NextRoot(store: Store, scope: Section, value: Json): Root {
    Sections(map[Video := Pick(store, scope, value, Video), Network := Pick(store, scope, value, Network),
                 Http := Pick(store, scope, value, Http), Rtsp := Pick(store, scope, value, Rtsp),
                 Snapshot := Pick(store, scope, value, Snapshot), Webrtc := Pick(store, scope, value, Webrtc),
                 Onvif := Pick(store, scope, value, Onvif)])
  }

  function StoredRoot(store: Store): Root {
    Sections(map[Video := Get(store, Video), Network := Get(store, Network), Http := Get(store, Http),
                 Rtsp := Get(store, Rtsp), Snapshot := Get(store, Snapshot), Webrtc := Get(store, Webrtc),
                 Onvif := Get(store, Onvif)])
  }

  method BuildStoredRoot(store: Store) returns (root: Root)
    ensures root == StoredRoot(store)
  {
    var members: map<Section, Json> := map[];
    members := members[Video := Get(store, Video)];
    members := members[Network := Get(store, Network)];
    members := members[Http := Get(store, Http)];
    members := members[Rtsp := Get(store, Rtsp)];
    members := members[Snapshot := Get(store, Snapshot)];
    members := members[Webrtc := Get(store, Webrtc)];
    members := members[Onvif := Get(store, Onvif)];
    return Sections(members);
  }

  method LoadAppConfig(store: Store, appConfig: AppConfig) returns (ok: bool, appConfig': AppConfig)
    ensures ok == Load(StoredRoot(store)).Some?
    ensures appConfig' == if ok then Load(StoredRoot(store)).value else appConfig
  {
    var root := BuildStoredRoot(store);
    ok, appConfig' := LoadAppConfigFromRoot(root, appConfig);
  }

  /** The loop that builds the next root visits the seven names in order. */
  method BuildNextRoot(store: Store, scope: Section, value: Json) returns (root: Root)
    ensures root == NextRoot(store, scope, value)
  {
    var members: map<Section, Json> := map[];
    for i := 0 to |SECTIONS|
      invariant forall j :: 0 <= j < i ==> SECTIONS[j] in members
      invariant forall section <- members :: Known(section) && members[section] == Pick(store, scope, value, section)
    {
      var item := SECTIONS[i];
      if scope == item {
        members := members[item := value];
      } else {
        members := members[item := Get(store, item)];
      }
    }
    NextRootUnique(store, scope, value, members);
    return Sections(members);
  }

  lemma NextRootUnique(store: Store, scope: Section, value: Json, members: map<Section, Json>)
    requires forall j :: 0 <= j < |SECTIONS| ==> SECTIONS[j] in members
    requires forall section <- members :: Known(section) && members[section] == Pick(store, scope, value, section)
    ensures Sections(members) == NextRoot(store, scope, value)
  {
    var expected := NextRoot(store, scope, value).members;
    assert SECTIONS[0] == Video && SECTIONS[1] == Network && SECTIONS[2] == Http && SECTIONS[3] == Rtsp;
    assert SECTIONS[4] == Snapshot && SECTIONS[5] == Webrtc && SECTIONS[6] == Onvif;
    forall section
      ensures section in members <==> section in expected
    {
      match section
      case Video =>
      case Network =>
      case Http =>
      case Rtsp =>
      case Snapshot =>
      case Webrtc =>
      case Onvif =>
      case Other(_) =>
    }
    assert members == expected;
  }
}
