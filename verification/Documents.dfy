/**
  What a configuration document says, member by member: which JSON value stands under which name for each field
  of the configuration.  Nothing here knows how the loader reads; it is proved to read exactly this.
 */
module Documents {
  import opened Wrappers
  import opened JsonValues
  import opened AppConfiguration

  /** The object has the member, with this value. */
  predicate Has(json: Json, key: Key, value: Json) {
    json.JObject? && key in json.members && json.members[key] == value
  }

  function CodecText(codec: Codec): string {
    match codec
    case H264 => "h264"
    case H265 => "h265"
  }

  predicate SaysStream(video: Json, stream: Key, codec: Codec) {
    && video.JObject? && Streams in video.members
    && video.members[Streams].JObject? && stream in video.members[Streams].members
    && Has(video.members[Streams].members[stream], CodecName, JString(CodecText(codec)))
  }

  predicate SaysVideo(video: Json, config: AppConfig) {
    SaysStream(video, MainStream, config.rtspMainCodec) && SaysStream(video, SubStream, config.rtspSubCodec)
  }

  predicate NamesInterface(network: Json) {
    network.JObject? && DefaultIfname in network.members && network.members[DefaultIfname].JString? &&
    network.members[DefaultIfname].text != ""
  }

  predicate SaysNetwork(network: Json, config: AppConfig) {
    && Has(network, AdvertiseIp, JString(config.advertiseHost)) && config.advertiseHost != ""
    && if NamesInterface(network) then Has(network, DefaultIfname, JString(config.networkIfname))
       else config.networkIfname == "eth0"
  }

  predicate SaysHttp(http: Json, config: AppConfig) {
    && Has(http, Port, JNumber(config.httpPort)) && 1 <= config.httpPort <= 65535
    && Has(http, StaticRoot, JString(config.staticRoot)) && config.staticRoot != ""
  }

  predicate SaysRtsp(rtsp: Json, config: AppConfig) {
    && Has(rtsp, Port, JNumber(config.rtspPort)) && 1 <= config.rtspPort <= 65535
    && Has(rtsp, AuthRequired, JBool(config.rtspAuthRequired))
    && Has(rtsp, MaxSessions, JNumber(config.rtspMaxSessions)) && 1 <= config.rtspMaxSessions <= 4294967295
  }

  /** A section that is checked, though nothing of it is kept. */
  predicate SaysSnapshot(snapshot: Json) {
    && snapshot.JObject? && Enabled in snapshot.members && JpegQuality in snapshot.members && TimeoutMs in snapshot.members
    && snapshot.members[Enabled].JBool?
    && snapshot.members[JpegQuality].JNumber? && 1 <= snapshot.members[JpegQuality].number <= 100
    && snapshot.members[TimeoutMs].JNumber? && 1 <= snapshot.members[TimeoutMs].number <= 4294967295
  }

  predicate SaysServer(item: Json, server: IceServer) {
    && Has(item, Url, JString(server.url)) && Has(item, Username, JString(server.username))
    && Has(item, Credential, JString(server.credential))
  }

  predicate SaysServers(webrtc: Json, servers: seq<IceServer>) {
    && webrtc.JObject? && IceServers in webrtc.members && webrtc.members[IceServers].JArray?
    && |webrtc.members[IceServers].items| == |servers|
    && forall i :: 0 <= i < |servers| ==> SaysServer(webrtc.members[IceServers].items[i], servers[i])
  }

  /** The section names the address, or leaves it to the application. */
  predicate SaysPublicIp(webrtc: Json, publicIp: string) {
    if webrtc.JObject? && PublicIp in webrtc.members then webrtc.members[PublicIp] == JString(publicIp)
    else publicIp == "auto"
  }

  predicate SaysWebrtc(webrtc: Json, config: AppConfig) {
    && Has(webrtc, Enabled, JBool(config.webrtcEnabled)) && Has(webrtc, PreferTcp, JBool(config.webrtcPreferTcp))
    && Has(webrtc, LocalPortBase, JNumber(config.webrtcLocalPortBase)) && 1 <= config.webrtcLocalPortBase <= 65535
    && Has(webrtc, MaxPeers, JNumber(config.webrtcMaxPeers)) && 1 <= config.webrtcMaxPeers <= 4294967295
    && SaysPublicIp(webrtc, config.webrtcPublicIp) && SaysServers(webrtc, config.webrtcIceServers)
  }

  /** The section's own address must be there; it is not kept. */
  predicate HasAddress(onvif: Json) {
    onvif.JObject? && AdvertiseIp in onvif.members && onvif.members[AdvertiseIp].JString? &&
    onvif.members[AdvertiseIp].text != ""
  }

  predicate SaysOnvif(onvif: Json, config: AppConfig) {
    && HasAddress(onvif)
    && Has(onvif, DeviceServicePort, JNumber(config.onvifDevicePort)) && 1 <= config.onvifDevicePort <= 65535
    && Has(onvif, DiscoveryPort, JNumber(config.onvifDiscoveryPort)) && 1 <= config.onvifDiscoveryPort <= 65535
    && Has(onvif, DiscoveryEnabled, JBool(config.onvifDiscoveryEnabled))
    && Has(onvif, AuthRequired, JBool(config.onvifAuthRequired))
    && Has(onvif, Manufacturer, JString(config.onvifManufacturer)) && Has(onvif, Model, JString(config.onvifModel))
  }

  predicate SaysSection(section: Section, json: Json, config: AppConfig) {
    match section
    case Video => SaysVideo(json, config)
    case Network => SaysNetwork(json, config)
    case Http => SaysHttp(json, config)
    case Rtsp => SaysRtsp(json, config)
    case Snapshot => SaysSnapshot(json)
    case Webrtc => SaysWebrtc(json, config)
    case Onvif => SaysOnvif(json, config)
    case Other(_) => false
  }

  /** The document has all seven sections, and each says what the configuration has in the fields it feeds. */
  ghost predicate Says(root: Root, config: AppConfig) {
    && root.Sections? && config.listenIp == "0.0.0.0"
    && {Video, Network, Http, Rtsp, Snapshot, Webrtc, Onvif} <= root.members.Keys
    && forall section: Section | !section.Other? :: SaysSection(section, root.members[section], config)
  }

  // ----- The loader reads exactly this, section by section -----

  lemma StreamReads(video: Json, stream: Key, codec: Codec)
    ensures ParseStreamCodec(video, stream) == Some(codec) <==> SaysStream(video, stream, codec)
  {
    TextTellsCodec(H264, H265);
  }

  lemma TextTellsCodec(left: Codec, right: Codec)
    ensures left != right ==> CodecText(left) != CodecText(right)
  {
    assert CodecText(H264)[3] != CodecText(H265)[3];
  }

  lemma VideoReads(video: Json, config: AppConfig)
    ensures ParseVideo(video) == Some(ViewOf(Video, config)) <==> SaysVideo(video, config)
  {
    StreamReads(video, MainStream, config.rtspMainCodec);
    StreamReads(video, SubStream, config.rtspSubCodec);
  }

  lemma NetworkReads(network: Json, config: AppConfig)
    ensures ParseSection(Network, network) == Some(ViewOf(Network, config)) <==> SaysNetwork(network, config)
  {
  }

  lemma HttpReads(http: Json, config: AppConfig)
    ensures ParseHttp(http) == Some(ViewOf(Http, config)) <==> SaysHttp(http, config)
  {
  }

  lemma RtspReads(rtsp: Json, config: AppConfig)
    ensures ParseRtsp(rtsp) == Some(ViewOf(Rtsp, config)) <==> SaysRtsp(rtsp, config)
  {
  }

  lemma ServersRead(webrtc: Json, servers: seq<IceServer>)
    ensures ParseIceMember(webrtc) == Some(servers) <==> SaysServers(webrtc, servers)
  {
    if webrtc.Contains(IceServers) && webrtc.members[IceServers].JArray? {
      var items := webrtc.members[IceServers].items;
      IceServersInOrder(items);
      if SaysServers(webrtc, servers) {
        ServersSaid(items, servers);
      }
    }
  }

  lemma ServersSaid(items: seq<Json>, servers: seq<IceServer>)
    requires |items| == |servers| && forall i :: 0 <= i < |servers| ==> SaysServer(items[i], servers[i])
    ensures ParseIceServers(items) == Some(servers)
  {
    IceServersInOrder(items);
    forall item | item in items
      ensures ParseIceServer(item).Some?
    {
      var i :| 0 <= i < |items| && items[i] == item;
      assert SaysServer(items[i], servers[i]);
    }
    forall i | 0 <= i < |items|
      ensures ParseIceServers(items).value[i] == servers[i]
    {
      assert SaysServer(items[i], servers[i]);
      assert ParseIceServer(items[i]) == Some(servers[i]);
    }
    assert ParseIceServers(items).value == servers;
  }

  lemma WebrtcReads(webrtc: Json, config: AppConfig)
    ensures ParseSection(Webrtc, webrtc) == Some(ViewOf(Webrtc, config)) <==> SaysWebrtc(webrtc, config)
  {
    ServersRead(webrtc, config.webrtcIceServers);
  }

  lemma OnvifReads(onvif: Json, config: AppConfig)
    ensures ParseOnvif(onvif) == Some(ViewOf(Onvif, config)) <==> SaysOnvif(onvif, config)
  {
  }

  lemma SectionReads(section: Section, json: Json, config: AppConfig)
    ensures ParseSection(section, json) == Some(ViewOf(section, config)) <==> SaysSection(section, json, config)
  {
    match section
    case Video => VideoReads(json, config);
    case Network => NetworkReads(json, config);
    case Http => HttpReads(json, config);
    case Rtsp => RtspReads(json, config);
    case Snapshot =>
    case Webrtc => WebrtcReads(json, config);
    case Onvif => OnvifReads(json, config);
    case Other(_) =>
  }

  /** A document loads to a configuration if and only if it says that configuration, member by member. */
  lemma LoadIffSays(root: Root, config: AppConfig)
    ensures Load(root) == Some(config) <==> Says(root, config)
  {
    LoadIffDescribes(root, config);
    if Complete(root) {
      forall section: Section | !section.Other?
        ensures ParseSection(section, root.members[section]) == Some(ViewOf(section, config)) <==>
                SaysSection(section, root.members[section], config)
      {
        SectionReads(section, root.members[section], config);
      }
    }
  }

  // ----- Writing a configuration down and loading it -----

  /** What the numbers and texts of a configuration must be like for a document to say them. */
  predicate Sayable(config: AppConfig) {
    && config.listenIp == "0.0.0.0" && config.advertiseHost != "" && config.networkIfname != "" && config.staticRoot != ""
    && 1 <= config.httpPort <= 65535 && 1 <= config.rtspPort <= 65535
    && 1 <= config.onvifDevicePort <= 65535 && 1 <= config.onvifDiscoveryPort <= 65535
    && 1 <= config.webrtcLocalPortBase <= 65535
    && 1 <= config.rtspMaxSessions <= 4294967295 && 1 <= config.webrtcMaxPeers <= 4294967295
  }

  function StreamOf(codec: Codec): Json {
    JObject(map[CodecName := JString(CodecText(codec))])
  }

  function VideoOf(config: AppConfig): Json {
    JObject(map[Streams := JObject(map[MainStream := StreamOf(config.rtspMainCodec), SubStream := StreamOf(config.rtspSubCodec)])])
  }

  function NetworkOf(config: AppConfig): Json {
    JObject(map[AdvertiseIp := JString(config.advertiseHost), DefaultIfname := JString(config.networkIfname)])
  }

  function HttpOf(config: AppConfig): Json {
    JObject(map[Port := JNumber(config.httpPort), StaticRoot := JString(config.staticRoot)])
  }

  function RtspOf(config: AppConfig): Json {
    JObject(map[Port := JNumber(config.rtspPort), AuthRequired := JBool(config.rtspAuthRequired),
                MaxSessions := JNumber(config.rtspMaxSessions)])
  }

  const A_SNAPSHOT: Json := JObject(map[Enabled := JBool(true), JpegQuality := JNumber(85), TimeoutMs := JNumber(2000)])

  function ServerOf(server: IceServer): Json {
    JObject(map[Url := JString(server.url), Username := JString(server.username), Credential := JString(server.credential)])
  }

  function WebrtcOf(config: AppConfig): Json {
    JObject(map[Enabled := JBool(config.webrtcEnabled), PreferTcp := JBool(config.webrtcPreferTcp),
                LocalPortBase := JNumber(config.webrtcLocalPortBase), MaxPeers := JNumber(config.webrtcMaxPeers),
                PublicIp := JString(config.webrtcPublicIp),
                IceServers := JArray(seq(|config.webrtcIceServers|, i requires 0 <= i < |config.webrtcIceServers| =>
                                           ServerOf(config.webrtcIceServers[i])))])
  }

  function OnvifOf(config: AppConfig): Json {
    JObject(map[AdvertiseIp := JString(config.advertiseHost), DeviceServicePort := JNumber(config.onvifDevicePort),
                DiscoveryPort := JNumber(config.onvifDiscoveryPort), DiscoveryEnabled := JBool(config.onvifDiscoveryEnabled),
                AuthRequired := JBool(config.onvifAuthRequired), Manufacturer := JString(config.onvifManufacturer),
                Model := JString(config.onvifModel)])
  }

  /** A document for a configuration: each field under its own member. */
  function RootOf(config: AppConfig): Root {
    Sections(map[Video := VideoOf(config), Network := NetworkOf(config), Http := HttpOf(config), Rtsp := RtspOf(config),
                 Snapshot := A_SNAPSHOT, Webrtc := WebrtcOf(config), Onvif := OnvifOf(config)])
  }

  lemma SectionsWritten(config: AppConfig)
    requires Sayable(config)
    ensures SaysVideo(VideoOf(config), config) && SaysNetwork(NetworkOf(config), config)
    ensures SaysHttp(HttpOf(config), config) && SaysRtsp(RtspOf(config), config) && SaysSnapshot(A_SNAPSHOT)
    ensures SaysOnvif(OnvifOf(config), config)
  {
  }

  lemma ServersWritten(config: AppConfig)
    ensures SaysServers(WebrtcOf(config), config.webrtcIceServers)
  {
  }

  lemma WebrtcWritten(config: AppConfig)
    requires Sayable(config)
    ensures SaysWebrtc(WebrtcOf(config), config)
  {
    ServersWritten(config);
  }

  lemma SectionWritten(config: AppConfig, section: Section)
    requires Sayable(config) && !section.Other?
    ensures RootOf(config).Sections? && section in RootOf(config).members
    ensures SaysSection(section, RootOf(config).members[section], config)
  {
    SectionsWritten(config);
    WebrtcWritten(config);
  }

  /** Writing any configuration and loading it gives it back. */
  lemma WriteThenLoad(config: AppConfig)
    requires Sayable(config)
    ensures Load(RootOf(config)) == Some(config)
  {
    forall section: Section | !section.Other?
      ensures SaysSection(section, RootOf(config).members[section], config)
    {
      SectionWritten(config, section);
    }
    LoadIffSays(RootOf(config), config);
  }

  /** Every configuration that loads can be written. */
  lemma LoadedIsSayable(root: Root, config: AppConfig)
    requires Load(root) == Some(config)
    ensures Sayable(config) && Load(RootOf(config)) == Some(config)
  {
    LoadIffSays(root, config);
    WriteThenLoad(config);
  }
}
