/**
  The application configuration and what each of the seven stored JSON sections means.  A section
  is read on its own, by a function that knows nothing of the other sections or of an earlier
  configuration; `Load` only puts the seven readings together.  The loader of ConfigLoader.dfy,
  which fills one shared structure field by field, is proved equal to `Load`.
 */
module AppConfiguration {
  import opened Wrappers
  import opened JsonValues

  /** The names under which configuration is stored; `Other` is any name the application does not use. */
  datatype Section = Video | Network | Http | Rtsp | Snapshot | Webrtc | Onvif | Other(name: string)

  /** The seven names the loader asks for, in its order. */
  const SECTIONS: seq<Section> := [Video, Network, Http, Rtsp, Snapshot, Webrtc, Onvif]

  predicate Known(section: Section) {
    !section.Other?
  }

  /** The root document handed to the loader. */
  datatype Root = NotAnObject | Sections(members: map<Section, Json>)

  datatype Codec = H264 | H265

  datatype IceServer = IceServer(url: string, username: string, credential: string)

  datatype AppConfig = AppConfig(
    listenIp: string,
    advertiseHost: string,
    staticRoot: string,
    onvifManufacturer: string,
    onvifModel: string,
    networkIfname: string,
    httpPort: nat,
    rtspPort: nat,
    onvifDevicePort: nat,
    onvifDiscoveryPort: nat,
    webrtcLocalPortBase: nat,
    rtspMaxSessions: nat,
    webrtcMaxPeers: nat,
    webrtcPublicIp: string,
    rtspMainCodec: Codec,
    rtspSubCodec: Codec,
    rtspAuthRequired: bool,
    onvifAuthRequired: bool,
    onvifDiscoveryEnabled: bool,
    webrtcEnabled: bool,
    webrtcPreferTcp: bool,
    webrtcIceServers: seq<IceServer>)

  const MAX_PORT: nat := 65535
  const MAX_UINT32: nat := 0xffffffff

  const DEFAULT_CONFIG: AppConfig := AppConfig(
    "0.0.0.0", "127.0.0.1", "web", "CBinary", "live_stream_ipc", "eth0",
    80, 554, 8000, 3702, 16000, 16, 2, "auto", H264, H264,
    true, true, true, true, false, [])

  // ----- What one section contributes -----

  datatype View =
    | VideoView(mainCodec: Codec, subCodec: Codec)
    | NetworkView(advertiseHost: string, ifname: string)
    | HttpView(port: nat, staticRoot: string)
    | RtspView(rtspPort: nat, rtspAuth: bool, maxSessions: nat)
    | SnapshotView
    | WebrtcView(enabled: bool, preferTcp: bool, localPortBase: nat, maxPeers: nat,
                 publicIp: string, iceServers: seq<IceServer>)
    | OnvifView(devicePort: nat, discoveryPort: nat, discoveryEnabled: bool, onvifAuth: bool,
                manufacturer: string, model: string)
    | UnknownView

  /** The part of a configuration that a section feeds. */
  function ViewOf(section: Section, config: AppConfig): View {
    match section
    case Video => VideoView(config.rtspMainCodec, config.rtspSubCodec)
    case Network => NetworkView(config.advertiseHost, config.networkIfname)
    case Http => HttpView(config.httpPort, config.staticRoot)
    case Rtsp => RtspView(config.rtspPort, config.rtspAuthRequired, config.rtspMaxSessions)
    case Snapshot => SnapshotView
    case Webrtc => WebrtcView(config.webrtcEnabled, config.webrtcPreferTcp, config.webrtcLocalPortBase,
                              config.webrtcMaxPeers, config.webrtcPublicIp, config.webrtcIceServers)
    case Onvif => OnvifView(config.onvifDevicePort, config.onvifDiscoveryPort, config.onvifDiscoveryEnabled,
                            config.onvifAuthRequired, config.onvifManufacturer, config.onvifModel)
    case Other(_) => UnknownView
  }

  function ParseCodec(text: string): Option<Codec> {
    if text == "h265" then Some(H265) else if text == "h264" then Some(H264) else None
  }

  function ParseStreamCodec(video: Json, stream: Key): Option<Codec> {
    if video.Contains(Streams) && video.members[Streams].Contains(stream) then
      match ReadString(video.members[Streams].members[stream], CodecName)
      case Some(text) => ParseCodec(text)
      case None => None
    else
      None
  }

  function ParseVideo(video: Json): (view: Option<View>)
    ensures view.Some? ==> view.value.VideoView?
  {
    match (ParseStreamCodec(video, MainStream), ParseStreamCodec(video, SubStream))
    case (Some(main), Some(sub)) => Some(VideoView(main, sub))
    case _ => None
  }

  /** A missing, mistyped or empty interface name stands for the default one. */
  function ParseNetwork(network: Json, defaultIfname: string): (view: Option<View>)
    ensures view.Some? ==> view.value.NetworkView?
  {
    match ReadString(network, AdvertiseIp)
    case Some(host) =>
      if host == "" then None
      else
        var ifname := ReadString(network, DefaultIfname);
        Some(NetworkView(host, if ifname.Some? && ifname.value != "" then ifname.value else defaultIfname))
    case None => None
  }

  function ParseHttp(http: Json): (view: Option<View>)
    ensures view.Some? ==> view.value.HttpView?
  {
    match (ReadUint(http, Port, 1, MAX_PORT), ReadString(http, StaticRoot))
    case (Some(port), Some(root)) => if root == "" then None else Some(HttpView(port, root))
    case _ => None
  }

  function ParseRtsp(rtsp: Json): (view: Option<View>)
    ensures view.Some? ==> view.value.RtspView?
  {
    match (ReadUint(rtsp, Port, 1, MAX_PORT), ReadBool(rtsp, AuthRequired),
           ReadUint(rtsp, MaxSessions, 1, MAX_UINT32))
    case (Some(port), Some(auth), Some(sessions)) => Some(RtspView(port, auth, sessions))
    case _ => None
  }

  function ParseSnapshot(snapshot: Json): (view: Option<View>)
    ensures view.Some? ==> view.value.SnapshotView?
  {
    if && ReadBool(snapshot, Enabled).Some?
       && ReadUint(snapshot, JpegQuality, 1, 100).Some?
       && ReadUint(snapshot, TimeoutMs, 1, MAX_UINT32).Some?
    then Some(SnapshotView)
    else None
  }

  function ParseIceServer(item: Json): Option<IceServer> {
    match (ReadString(item, Url), ReadString(item, Username), ReadString(item, Credential))
    case (Some(url), Some(username), Some(credential)) => Some(IceServer(url, username, credential))
    case _ => None
  }

  /** The server list, in document order; one bad entry spoils the list. */
  function ParseIceServers(items: seq<Json>): Option<seq<IceServer>> {
    if items == [] then Some([])
    else
      match (ParseIceServers(items[..|items| - 1]), ParseIceServer(items[|items| - 1]))
      case (Some(front), Some(last)) => Some(front + [last])
      case _ => None
  }

  /** An absent `public_ip` stands for the default; a present one must be a string. */
  function ParsePublicIp(webrtc: Json, defaultIp: string): Option<string> {
    if webrtc.Contains(PublicIp) then ReadString(webrtc, PublicIp) else Some(defaultIp)
  }

  function ParseIceMember(webrtc: Json): Option<seq<IceServer>> {
    if webrtc.Contains(IceServers) && webrtc.members[IceServers].JArray?
    then ParseIceServers(webrtc.members[IceServers].items)
    else None
  }

  function ParseWebrtc(webrtc: Json, defaultIp: string): (view: Option<View>)
    ensures view.Some? ==> view.value.WebrtcView?
  {
    var enabled := ReadBool(webrtc, Enabled);
    var tcp := ReadBool(webrtc, PreferTcp);
    var base := ReadUint(webrtc, LocalPortBase, 1, MAX_PORT);
    var peers := ReadUint(webrtc, MaxPeers, 1, MAX_UINT32);
    var ip := ParsePublicIp(webrtc, defaultIp);
    var ice := ParseIceMember(webrtc);
    if enabled.Some? && tcp.Some? && base.Some? && peers.Some? && ip.Some? && ice.Some?
    then Some(WebrtcView(enabled.value, tcp.value, base.value, peers.value, ip.value, ice.value))
    else None
  }

  /** `advertise_ip` must be there and not empty, yet contributes nothing. */
  function ParseOnvif(onvif: Json): (view: Option<View>)
    ensures view.Some? ==> view.value.OnvifView?
  {
    var device := ReadUint(onvif, DeviceServicePort, 1, MAX_PORT);
    var discovery := ReadUint(onvif, DiscoveryPort, 1, MAX_PORT);
    var enabled := ReadBool(onvif, DiscoveryEnabled);
    var auth := ReadBool(onvif, AuthRequired);
    var ip := ReadString(onvif, AdvertiseIp);
    var maker := ReadString(onvif, Manufacturer);
    var model := ReadString(onvif, Model);
    if && device.Some? && discovery.Some? && enabled.Some? && auth.Some?
       && ip.Some? && ip.value != "" && maker.Some? && model.Some?
    then Some(OnvifView(device.value, discovery.value, enabled.value, auth.value, maker.value, model.value))
    else None
  }

  /** The reading of one section, on its own. */
  function ParseSection(section: Section, json: Json): Option<View> {
    match section
    case Video => ParseVideo(json)
    case Network => ParseNetwork(json, DEFAULT_CONFIG.networkIfname)
    case Http => ParseHttp(json)
    case Rtsp => ParseRtsp(json)
    case Snapshot => ParseSnapshot(json)
    case Webrtc => ParseWebrtc(json, DEFAULT_CONFIG.webrtcPublicIp)
    case Onvif => ParseOnvif(json)
    case Other(_) => None
  }

  // ----- The whole configuration -----

  function Assemble(video: View, network: View, http: View, rtsp: View, webrtc: View, onvif: View): AppConfig
    requires video.VideoView? && network.NetworkView? && http.HttpView?
    requires rtsp.RtspView? && webrtc.WebrtcView? && onvif.OnvifView?
  {
    AppConfig(DEFAULT_CONFIG.listenIp, network.advertiseHost, http.staticRoot,
              onvif.manufacturer, onvif.model, network.ifname,
              http.port, rtsp.rtspPort, onvif.devicePort, onvif.discoveryPort, webrtc.localPortBase,
              rtsp.maxSessions, webrtc.maxPeers, webrtc.publicIp,
              video.mainCodec, video.subCodec,
              rtsp.rtspAuth, onvif.onvifAuth, onvif.discoveryEnabled, webrtc.enabled, webrtc.preferTcp,
              webrtc.iceServers)
  }

  predicate Complete(root: Root) {
    && root.Sections?
    && Video in root.members && Network in root.members && Http in root.members && Rtsp in root.members
    && Snapshot in root.members && Webrtc in root.members && Onvif in root.members
  }

  function LoadSections(video: Json, network: Json, http: Json, rtsp: Json, snapshot: Json, webrtc: Json,
                        onvif: Json): Option<AppConfig> {
    var videoView := ParseVideo(video);
    var networkView := ParseNetwork(network, DEFAULT_CONFIG.networkIfname);
    var httpView := ParseHttp(http);
    var rtspView := ParseRtsp(rtsp);
    var webrtcView := ParseWebrtc(webrtc, DEFAULT_CONFIG.webrtcPublicIp);
    var onvifView := ParseOnvif(onvif);
    if && videoView.Some? && networkView.Some? && httpView.Some? && rtspView.Some?
       && ParseSnapshot(snapshot).Some? && webrtcView.Some? && onvifView.Some?
    then Some(Assemble(videoView.value, networkView.value, httpView.value, rtspView.value, webrtcView.value,
                       onvifView.value))
    else None
  }

  function Load(root: Root): Option<AppConfig> {
    if !Complete(root) then None
    else
      LoadSections(root.members[Video], root.members[Network], root.members[Http], root.members[Rtsp],
                   root.members[Snapshot], root.members[Webrtc], root.members[Onvif])
  }

  /** `config` is what `root` says: every section reads as the part of `config` that it feeds. */
  ghost predicate Describes(root: Root, config: AppConfig) {
    && Complete(root)
    && config.listenIp == DEFAULT_CONFIG.listenIp
    && forall section | Known(section) :: ParseSection(section, root.members[section]) == Some(ViewOf(section, config))
  }

  /** A configuration is determined by its views. */
  lemma ViewsDetermine(left: AppConfig, right: AppConfig)
    requires left.listenIp == right.listenIp
    requires forall section | Known(section) :: ViewOf(section, left) == ViewOf(section, right)
    ensures left == right
  {
    assert Known(Video) && Known(Network) && Known(Http) && Known(Rtsp) && Known(Webrtc) && Known(Onvif);
  }

  lemma LoadReads(root: Root, section: Section, config: AppConfig)
    requires Load(root) == Some(config) && Known(section)
    ensures Complete(root) && ParseSection(section, root.members[section]) == Some(ViewOf(section, config))
  {
    match section
    case Video =>
    case Network =>
    case Http =>
    case Rtsp =>
    case Snapshot =>
    case Webrtc =>
    case Onvif =>
    case Other(_) =>
  }

  lemma DescribedReads(root: Root, section: Section, config: AppConfig)
    requires Describes(root, config) && Known(section)
    ensures ParseSection(section, root.members[section]) == Some(ViewOf(section, config))
  {
  }

  lemma DescribedLoads(root: Root, config: AppConfig)
    requires Describes(root, config)
    ensures Load(root).Some?
  {
    assert ParseVideo(root.members[Video]).Some? by { DescribedReads(root, Video, config); }
    assert ParseNetwork(root.members[Network], DEFAULT_CONFIG.networkIfname).Some? by {
      DescribedReads(root, Network, config);
    }
    assert ParseHttp(root.members[Http]).Some? by { DescribedReads(root, Http, config); }
    assert ParseRtsp(root.members[Rtsp]).Some? by { DescribedReads(root, Rtsp, config); }
    assert ParseSnapshot(root.members[Snapshot]).Some? by { DescribedReads(root, Snapshot, config); }
    assert ParseWebrtc(root.members[Webrtc], DEFAULT_CONFIG.webrtcPublicIp).Some? by {
      DescribedReads(root, Webrtc, config);
    }
    assert ParseOnvif(root.members[Onvif]).Some? by { DescribedReads(root, Onvif, config); }
  }

  lemma LoadDescribes(root: Root, config: AppConfig)
    requires Load(root) == Some(config)
    ensures Describes(root, config)
  {
    forall section | Known(section)
      ensures ParseSection(section, root.members[section]) == Some(ViewOf(section, config))
    {
      LoadReads(root, section, config);
    }
  }

  /** Loading succeeds with exactly the one configuration the root describes. */
  lemma LoadIffDescribes(root: Root, config: AppConfig)
    ensures Load(root) == Some(config) <==> Describes(root, config)
  {
    if Load(root) == Some(config) {
      LoadDescribes(root, config);
    }
    if Describes(root, config) {
      DescribedLoads(root, config);
      var loaded := Load(root).value;
      LoadDescribes(root, loaded);
      ViewsDetermine(loaded, config);
    }
  }

  /** Replacing one section changes at most the fields which that section feeds. */
  lemma LoadIsLocal(root: Root, section: Section, value: Json, before: AppConfig, after: AppConfig)
    requires Load(root) == Some(before)
    requires Load(Sections(root.members[section := value])) == Some(after)
    ensures after.listenIp == before.listenIp
    ensures forall other | Known(other) && other != section :: ViewOf(other, after) == ViewOf(other, before)
  {
    LoadDescribes(root, before);
    LoadDescribes(Sections(root.members[section := value]), after);
  }

  /** The snapshot section, and any section the loader does not ask for, feeds nothing. */
  lemma InertSectionFeedsNothing(root: Root, section: Section, value: Json, before: AppConfig, after: AppConfig)
    requires section == Snapshot || !Known(section)
    requires Load(root) == Some(before)
    requires Load(Sections(root.members[section := value])) == Some(after)
    ensures after == before
  {
    LoadIsLocal(root, section, value, before, after);
    ViewsDetermine(after, before);
  }

  predicate SameMember(left: Json, right: Json, key: Key) {
    left.Contains(key) == right.Contains(key) && (left.Contains(key) ==> left.members[key] == right.members[key])
  }

  lemma SameMemberReads(left: Json, right: Json, key: Key)
    requires SameMember(left, right, key)
    ensures ReadString(left, key) == ReadString(right, key)
    ensures ReadBool(left, key) == ReadBool(right, key)
    ensures ReadUint(left, key, 1, MAX_PORT) == ReadUint(right, key, 1, MAX_PORT)
  {
  }

  /** The address stored with the onvif section is required but never used. */
  lemma OnvifAddressFeedsNothing(onvif: Json, moved: Json, address: string)
    requires forall key | key != AdvertiseIp :: SameMember(onvif, moved, key)
    requires ReadString(moved, AdvertiseIp) == Some(address)
    requires ParseOnvif(onvif).Some?
    ensures ParseOnvif(moved) == if address == "" then None else ParseOnvif(onvif)
  {
    SameMemberReads(onvif, moved, DeviceServicePort);
    SameMemberReads(onvif, moved, DiscoveryPort);
    SameMemberReads(onvif, moved, DiscoveryEnabled);
    SameMemberReads(onvif, moved, AuthRequired);
    SameMemberReads(onvif, moved, Manufacturer);
    SameMemberReads(onvif, moved, Model);
  }

  /** The server list keeps its length and order. */
  lemma {:induction false} IceServersInOrder(items: seq<Json>)
    ensures ParseIceServers(items).Some? <==> forall item <- items :: ParseIceServer(item).Some?
    ensures ParseIceServers(items).Some? ==>
              && |ParseIceServers(items).value| == |items|
              && forall i :: 0 <= i < |items| ==>
                   ParseIceServer(items[i]) == Some(ParseIceServers(items).value[i])
  {
    if items != [] {
      var front := items[..|items| - 1];
      IceServersInOrder(front);
      assert items == front + [items[|items| - 1]];
      if forall item <- items :: ParseIceServer(item).Some? {
        assert forall item <- front :: item in items;
        assert items[|items| - 1] in items;
      }
    }
  }

  /** What every loaded configuration satisfies, whatever the document. */
  lemma LoadedRanges(root: Root, config: AppConfig)
    requires Load(root) == Some(config)
    ensures 1 <= config.httpPort <= MAX_PORT && 1 <= config.rtspPort <= MAX_PORT
    ensures 1 <= config.onvifDevicePort <= MAX_PORT && 1 <= config.onvifDiscoveryPort <= MAX_PORT
    ensures 1 <= config.webrtcLocalPortBase <= MAX_PORT
    ensures 1 <= config.rtspMaxSessions <= MAX_UINT32 && 1 <= config.webrtcMaxPeers <= MAX_UINT32
    ensures config.staticRoot != "" && config.advertiseHost != "" && config.networkIfname != ""
    ensures root.members[Webrtc].Contains(IceServers) && root.members[Webrtc].members[IceServers].JArray?
    ensures |config.webrtcIceServers| == |root.members[Webrtc].members[IceServers].items|
    ensures forall i :: 0 <= i < |config.webrtcIceServers| ==>
              ParseIceServer(root.members[Webrtc].members[IceServers].items[i]) == Some(config.webrtcIceServers[i])
  {
    IceServersInOrder(root.members[Webrtc].members[IceServers].items);
  }
}
