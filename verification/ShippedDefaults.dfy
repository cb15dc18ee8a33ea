/**
  The configuration the repository ships, as far as the application reads it: what it loads to, and an
  update that really changes a running service.
 */
module ShippedDefaults {
  import opened Wrappers
  import opened JsonValues
  import opened AppConfiguration
  import opened ConfigLoader
  import opened ConfigService
  import opened ConfigChange
  import opened Ipv4
  import opened ProtocolOptions
  import opened Reconfiguration
  import opened Restarts

  const ADDRESS: string := "192.168.1.68"

  const H264_STREAM: Json := JObject(map[Enabled := JBool(true), CodecName := JString("h264")])

  const VIDEO: Json := JObject(map[Streams := JObject(map[MainStream := H264_STREAM, SubStream := H264_STREAM])])

  const NETWORK: Json := JObject(map[AdvertiseIp := JString(ADDRESS)])

  const HTTP: Json := JObject(map[Port := JNumber(80), StaticRoot := JString("web")])

  /** The shipped RTSP section, with authentication on or off. */
  function RtspSection(auth: bool): Json {
    JObject(map[Enabled := JBool(true), Port := JNumber(554), AuthRequired := JBool(auth), MaxSessions := JNumber(8)])
  }

  const SNAPSHOT: Json :=
    JObject(map[Enabled := JBool(true), JpegQuality := JNumber(85), TimeoutMs := JNumber(2000)])

  const WEBRTC: Json :=
    JObject(map[Enabled := JBool(true), LocalPortBase := JNumber(16000), PublicIp := JString("auto"),
                IceServers := JArray([]), MaxPeers := JNumber(2), PreferTcp := JBool(false)])

  const ONVIF: Json :=
    JObject(map[Enabled := JBool(true), DeviceServicePort := JNumber(8000), DiscoveryPort := JNumber(3702),
                DiscoveryEnabled := JBool(true), AuthRequired := JBool(true), AdvertiseIp := JString(ADDRESS),
                Manufacturer := JString("CBinary"), Model := JString("live_stream_ipc")])

  function Shipped(auth: bool): Store {
    map[Video := VIDEO, Network := NETWORK, Http := HTTP, Rtsp := RtspSection(auth), Snapshot := SNAPSHOT,
        Webrtc := WEBRTC, Onvif := ONVIF]
  }

  function ShippedConfig(auth: bool): AppConfig {
    DEFAULT_CONFIG.(advertiseHost := ADDRESS, rtspMaxSessions := 8, rtspAuthRequired := auth)
  }

  lemma SectionsRead(auth: bool)
    ensures ParseVideo(VIDEO) == Some(VideoView(H264, H264))
    ensures ParseNetwork(NETWORK, DEFAULT_CONFIG.networkIfname) == Some(NetworkView(ADDRESS, "eth0"))
    ensures ParseHttp(HTTP) == Some(HttpView(80, "web"))
    ensures ParseRtsp(RtspSection(auth)) == Some(RtspView(554, auth, 8))
    ensures ParseSnapshot(SNAPSHOT) == Some(SnapshotView)
  {
  }

  lemma WebrtcReads()
    ensures ParseWebrtc(WEBRTC, DEFAULT_CONFIG.webrtcPublicIp) == Some(WebrtcView(true, false, 16000, 2, "auto", []))
  {
  }

  lemma OnvifReads()
    ensures ParseOnvif(ONVIF) == Some(OnvifView(8000, 3702, true, true, "CBinary", "live_stream_ipc"))
  {
  }

  /** The shipped sections load; they differ from the built-in defaults in two fields. */
  lemma ShippedLoads(auth: bool)
    ensures Load(StoredRoot(Shipped(auth))) == Some(ShippedConfig(auth))
  {
    SectionsRead(auth);
    WebrtcReads();
    OnvifReads();
    ShippedRoot(auth);
  }

  lemma ShippedRoot(auth: bool)
    ensures StoredRoot(Shipped(auth)) == Sections(Shipped(auth)) && Complete(Sections(Shipped(auth)))
    ensures Load(Sections(Shipped(auth))) ==
            LoadSections(VIDEO, NETWORK, HTTP, RtspSection(auth), SNAPSHOT, WEBRTC, ONVIF)
  {
  }

  lemma BytesPrint()
    ensures PrintByte(192) == "192" && PrintByte(168) == "168" && PrintByte(1) == "1" && PrintByte(68) == "68"
  {
  }

  lemma AddressPrints()
    ensures PrintQuad(192, 168, 1, 68) == ADDRESS
  {
    BytesPrint();
    assert PrintQuad(192, 168, 1, 68) == "192" + "." + "168" + "." + "1" + "." + "68";
    assert "192" + "." + "168" + "." + "1" + "." + "68" == ADDRESS;
  }

  lemma AddressIsUsable()
    ensures Usable(ADDRESS)
  {
    AddressPrints();
    PrintParse(192, 168, 1, 68);
  }

  lemma AutoIsAuto()
    ensures IsAuto("auto")
  {
    assert Lower("auto") == "auto";
  }

  /** With the shipped sections WebRTC comes up enabled, whatever the network interface answers. */
  lemma ShippedWebrtcIsEnabled(network: NetworkAnswers)
    ensures WebrtcOptionsFor(ShippedConfig(true), network).enabled
  {
    var app := ShippedConfig(true);
    AutoIsAuto();
    AddressIsUsable();
    assert Candidates(app, network)[|Candidates(app, network)| - 1] == ADDRESS;
    EnabledIffSomeCandidateUsable(app, network);
  }

  lemma AuthDecides(store: Store, before: AppConfig, auth: bool, network: NetworkAnswers, up: Started)
    requires up.rtsp && auth != before.rtspAuthRequired
    ensures var next := before.(rtspAuthRequired := auth);
            && GuardAccepts(before, next, Rtsp)
            && Decide(Fresh(store, before, network, up), Rtsp, Some(next), true) == (Ok, Fresh(store, next, network, up))
  {
    var next := before.(rtspAuthRequired := auth);
    RtspGuard(before, next);
    assert Candidates(next, network) == Candidates(before, network);
  }

  /** An update of the RTSP section that only switches authentication reaches the service. */
  lemma AuthSwitch(store: Store, value: Json, before: AppConfig, auth: bool, network: NetworkAnswers, up: Started)
    requires up.rtsp && auth != before.rtspAuthRequired && Rtsp in store && store[Rtsp] != value
    requires Load(NextRoot(store, Rtsp, value)) == Some(before.(rtspAuthRequired := auth))
    ensures var live := Fresh(store, before, network, up);
            UpdateStep(live, Rtsp, value, true) ==
            Fresh(store[Rtsp := value], before.(rtspAuthRequired := auth), network, up)
  {
    var next := before.(rtspAuthRequired := auth);
    AuthDecides(store, before, auth, network, up);
    DecidedUpdate(Fresh(store, before, network, up), Rtsp, value, next, true, Fresh(store, next, network, up));
  }

  /**
    Switching RTSP authentication off in the running application is accepted, changes the options of the
    service, and gives the state in which the application starts on the changed section.
   */
  lemma SwitchingAuthOff(network: NetworkAnswers, up: Started, live: Live, other: Live)
    requires up.rtsp
    requires Boot(Shipped(true), "", network, up) == Some(live) && Boot(Shipped(false), "", network, up) == Some(other)
    ensures UpdateStep(live, Rtsp, RtspSection(false), true) == other
    ensures live.rtsp.value.enableAuth && !other.rtsp.value.enableAuth
  {
    BootsAsShipped(true, network, up);
    BootsAsShipped(false, network, up);
    var store := Shipped(true);
    ShippedSwitch(store);
    AuthSwitch(store, RtspSection(false), ShippedConfig(true), false, network, up);
  }

  lemma BootsAsShipped(auth: bool, network: NetworkAnswers, up: Started)
    ensures Boot(Shipped(auth), "", network, up) == Some(Fresh(Shipped(auth), ShippedConfig(auth), network, up))
  {
    ShippedLoads(auth);
  }

  lemma SwitchedStore()
    ensures Shipped(true)[Rtsp := RtspSection(false)] == Shipped(false)
  {
  }

  lemma SwitchedRoot()
    ensures NextRoot(Shipped(true), Rtsp, RtspSection(false)) == StoredRoot(Shipped(false))
  {
    SwitchedStore();
    CommittedRoot(Shipped(true), Rtsp, RtspSection(false));
  }

  lemma SwitchIsNew()
    ensures RtspSection(true) != RtspSection(false)
  {
    assert RtspSection(true).members[AuthRequired] != RtspSection(false).members[AuthRequired];
  }

  lemma ShippedSwitch(store: Store)
    requires store == Shipped(true)
    ensures store[Rtsp := RtspSection(false)] == Shipped(false) && Rtsp in store && store[Rtsp] != RtspSection(false)
    ensures Load(NextRoot(store, Rtsp, RtspSection(false))) == Some(ShippedConfig(false))
  {
    ShippedLoads(false);
    SwitchedStore();
    SwitchedRoot();
    SwitchIsNew();
  }

  // ----- Restarting with the shipped default file, and with another one -----

  /** The shipped default file supplies nothing that a start would load another way. */
  lemma NothingToFillIn(stored: Store, auth: bool)
    ensures !FillsIn(stored, Shipped(auth))
  {
    assert !NETWORK.Contains(DefaultIfname);
  }

  /** So with the shipped default file the running application is always what a restart would give. */
  lemma ShippedRestart(file: Store, auth: bool, network: NetworkAnswers, up: Started, events: seq<Event>)
    requires StartOn(file, Shipped(auth), "", network, up).Some? && OnlyUpdates(events)
    ensures var live := Run(StartOn(file, Shipped(auth), "", network, up).value, events);
            StartOn(live.store, Shipped(auth), "", network, up) == Some(live.(store := Merge(live.store, Shipped(auth))))
  {
    var live := Run(StartOn(file, Shipped(auth), "", network, up).value, events);
    NothingToFillIn(live.store, auth);
    ReconfiguringEqualsRestarting(file, Shipped(auth), network, up, events);
  }

  /** The WebRTC section without its optional member. */
  const UNADDRESSED: Json :=
    JObject(map[Enabled := JBool(true), LocalPortBase := JNumber(16000), IceServers := JArray([]),
                MaxPeers := JNumber(2), PreferTcp := JBool(false)])

  function Addressed(ip: string): Json {
    JObject(map[Enabled := JBool(true), LocalPortBase := JNumber(16000), PublicIp := JString(ip),
                IceServers := JArray([]), MaxPeers := JNumber(2), PreferTcp := JBool(false)])
  }

  /** A default file that names a public address. */
  function DefaultsNaming(ip: string): Store {
    Shipped(true)[Webrtc := Addressed(ip)]
  }

  lemma FileWins(ip: string)
    ensures Merge(Shipped(true), DefaultsNaming(ip)) == Shipped(true)
  {
    var store := Shipped(true);
    forall section | section in store
      ensures MergeJson(store[section], DefaultsNaming(ip)[section]) == store[section]
    {
      if section == Webrtc {
        assert MergeJson(WEBRTC, Addressed(ip)).members == WEBRTC.members;
      } else {
        MergeJsonSame(store[section]);
      }
    }
    assert Merge(store, DefaultsNaming(ip)) == store;
  }

  lemma UnaddressedReads()
    ensures ParseWebrtc(UNADDRESSED, DEFAULT_CONFIG.webrtcPublicIp) == Some(WebrtcView(true, false, 16000, 2, "auto", []))
    ensures UNADDRESSED != WEBRTC
  {
    assert PublicIp in WEBRTC.members && PublicIp !in UNADDRESSED.members;
  }

  lemma UnaddressedRoot(store: Store)
    requires store == Shipped(true)[Webrtc := UNADDRESSED]
    ensures StoredRoot(store) == Sections(store) && Complete(Sections(store))
    ensures Load(Sections(store)) == LoadSections(VIDEO, NETWORK, HTTP, RtspSection(true), SNAPSHOT, UNADDRESSED, ONVIF)
  {
  }

  lemma UnaddressedLoads()
    ensures Load(NextRoot(Shipped(true), Webrtc, UNADDRESSED)) == Some(ShippedConfig(true))
  {
    SectionsRead(true);
    UnaddressedReads();
    OnvifReads();
    UnaddressedRoot(Shipped(true)[Webrtc := UNADDRESSED]);
    CommittedRoot(Shipped(true), Webrtc, UNADDRESSED);
  }

  /** A configuration that does not change is accepted, and no service is asked. */
  lemma SameConfigAccepted(live: Live, scope: Section, accept: bool)
    requires ProtocolScope(scope)
    ensures GuardAccepts(live.app, live.app, scope)
    ensures Decide(live, scope, Some(live.app), accept) == (Ok, live)
  {
  }

  lemma AddressDropped(network: NetworkAnswers, up: Started, accept: bool)
    ensures var live := Fresh(Shipped(true), ShippedConfig(true), network, up);
            UpdateStep(live, Webrtc, UNADDRESSED, accept) == Commit(live, Webrtc, UNADDRESSED)
  {
    var live := Fresh(Shipped(true), ShippedConfig(true), network, up);
    UnaddressedReads();
    UnaddressedLoads();
    SameConfigAccepted(live, Webrtc, accept);
    DecidedUpdate(live, Webrtc, UNADDRESSED, live.app, accept, live);
  }

  lemma DroppingRun(ip: string, network: NetworkAnswers, up: Started, accept: bool)
    ensures StartOn(Shipped(true), DefaultsNaming(ip), "", network, up).Some?
    ensures var start := StartOn(Shipped(true), DefaultsNaming(ip), "", network, up).value;
            Run(start, [Update(Webrtc, UNADDRESSED, accept)]).store == Shipped(true)[Webrtc := UNADDRESSED]
  {
    FileWins(ip);
    BootsAsShipped(true, network, up);
    AddressDropped(network, up, accept);
    RunOne(Fresh(Shipped(true), ShippedConfig(true), network, up), Update(Webrtc, UNADDRESSED, accept));
  }

  lemma OneUpdate(event: Event)
    requires event.Update?
    ensures OnlyUpdates([event])
  {
  }

  /**
    With a default file that names a public address of its own, one accepted update suffices: drop the member
    from the stored section, and a restart no longer gives the running state.
   */
  lemma ARestartCanDiffer(ip: string, network: NetworkAnswers, up: Started, accept: bool)
    requires ip != "auto"
    ensures StartOn(Shipped(true), DefaultsNaming(ip), "", network, up).Some?
    ensures var live := Run(StartOn(Shipped(true), DefaultsNaming(ip), "", network, up).value,
                            [Update(Webrtc, UNADDRESSED, accept)]);
            && FillsIn(live.store, DefaultsNaming(ip))
            && StartOn(live.store, DefaultsNaming(ip), "", network, up) !=
               Some(live.(store := Merge(live.store, DefaultsNaming(ip))))
  {
    DroppingRun(ip, network, up, accept);
    DroppedFillsIn(ip);
    OneUpdate(Update(Webrtc, UNADDRESSED, accept));
    ReconfiguringEqualsRestarting(Shipped(true), DefaultsNaming(ip), network, up, [Update(Webrtc, UNADDRESSED, accept)]);
  }

  lemma DroppedFillsIn(ip: string)
    requires ip != "auto"
    ensures FillsIn(Shipped(true)[Webrtc := UNADDRESSED], DefaultsNaming(ip))
  {
    assert Addressed(ip).members[PublicIp] == JString(ip);
  }
}
