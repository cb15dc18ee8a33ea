/**
  From the stored document to the running services: which JSON value each option of each service is, after any run
  from any start.
 */
module ServedOptions {
  import opened Wrappers
  import opened JsonValues
  import opened AppConfiguration
  import opened ConfigLoader
  import opened ConfigService
  import opened ConfigChange
  import opened Documents
  import opened ProtocolOptions
  import opened Reconfiguration
  import opened Restarts

  // ----- Options and the members they stand for -----

  predicate RtspServes(store: Store, options: RtspOptions) {
    && options.listenIp == "0.0.0.0" && Rtsp in store
    && Has(store[Rtsp], Port, JNumber(options.listenPort))
    && Has(store[Rtsp], MaxSessions, JNumber(options.maxSessions))
    && Has(store[Rtsp], AuthRequired, JBool(options.enableAuth))
  }

  predicate RtspCodecsServe(store: Store, options: RtspOptions) {
    && Video in store
    && SaysStream(store[Video], MainStream, options.mainVideoCodec)
    && SaysStream(store[Video], SubStream, options.subVideoCodec)
  }

  predicate OnvifServes(store: Store, options: OnvifOptions) {
    && options.listenIp == "0.0.0.0" && Onvif in store && Http in store
    && Has(store[Onvif], DeviceServicePort, JNumber(options.deviceServicePort))
    && Has(store[Onvif], DiscoveryPort, JNumber(options.discoveryPort))
    && Has(store[Onvif], DiscoveryEnabled, JBool(options.discoveryEnabled))
    && Has(store[Onvif], AuthRequired, JBool(options.enableAuth))
    && Has(store[Onvif], Manufacturer, JString(options.manufacturer))
    && Has(store[Onvif], Model, JString(options.model))
    && Has(store[Http], Port, JNumber(options.httpPort))
  }

  predicate OnvifAddressServes(store: Store, options: OnvifOptions) {
    Network in store && Has(store[Network], AdvertiseIp, JString(options.advertiseIp))
  }

  predicate HttpServes(store: Store, options: HttpOptions) {
    options.listenIp == "0.0.0.0" && Http in store && Has(store[Http], Port, JNumber(options.listenPort))
  }

  predicate StaticRootServes(store: Store, options: HttpOptions) {
    Http in store && Has(store[Http], StaticRoot, JString(options.staticRoot))
  }

  predicate WebrtcServes(store: Store, options: WebrtcOptions) {
    && Webrtc in store
    && Has(store[Webrtc], LocalPortBase, JNumber(options.localPortBase))
    && Has(store[Webrtc], MaxPeers, JNumber(options.maxPeers))
    && Has(store[Webrtc], PreferTcp, JBool(options.preferTcp))
    && SaysServers(store[Webrtc], options.iceServers)
  }

  /** The section's own wish and address, the interface and the host of the network section, and the rule. */
  ghost predicate WebrtcAddressServes(store: Store, network: NetworkAnswers, options: WebrtcOptions) {
    && Webrtc in store && Network in store
    && exists wanted: bool, publicIp: string, ifname: string, host: string ::
         && Has(store[Webrtc], Enabled, JBool(wanted)) && SaysPublicIp(store[Webrtc], publicIp)
         && Has(store[Network], AdvertiseIp, JString(host)) && SaysIfname(store[Network], ifname)
         && Decided(wanted, publicIp, ifname, host, network, options.enabled, options.publicIp)
  }

  predicate SaysIfname(network: Json, ifname: string) {
    if NamesInterface(network) then Has(network, DefaultIfname, JString(ifname)) else ifname == "eth0"
  }

  // ----- What protocol sections feed -----

  /** Every option that a protocol section feeds is the JSON member it stands for. */
  predicate ProtocolOptionsServe(live: Live) {
    && (live.rtsp.Some? ==> RtspServes(live.store, live.rtsp.value))
    && (live.onvif.Some? ==> OnvifServes(live.store, live.onvif.value))
    && (live.http.Some? ==> HttpServes(live.store, live.http.value))
    && (live.webrtc.Some? ==> WebrtcServes(live.store, live.webrtc.value))
  }

  lemma StoredSays(live: Live, scope: Section)
    requires NearlyAnchored(live) && ProtocolScope(scope)
    ensures scope in live.store && SaysSection(scope, live.store[scope], Rerooted(live).app)
  {
    SectionReads(scope, Get(live.store, scope), Rerooted(live).app);
    assert ParseSection(scope, Get(live.store, scope)) == Some(ViewOf(scope, Rerooted(live).app));
  }

  lemma NearAgreementServes(live: Live)
    requires NearAgreement(live)
    ensures ProtocolOptionsServe(live)
  {
    StoredSays(live, Rtsp);
    StoredSays(live, Onvif);
    StoredSays(live, Http);
    StoredSays(live, Webrtc);
  }

  /**
    In every run, with arbitrary writes to other sections, address changes and any override, each option that a
    protocol section feeds is the JSON member it stands for in the section stored at that time.
   */
  lemma RunsServe(file: Store, defaults: Store, override: string, network: NetworkAnswers, up: Started, events: seq<Event>)
    requires StartOn(file, defaults, override, network, up).Some? && Legal(events)
    ensures ProtocolOptionsServe(Run(StartOn(file, defaults, override, network, up).value, events))
  {
    var start := StartOn(file, defaults, override, network, up).value;
    BootIsNear(Merge(file, defaults), override, network, up);
    RunsKeepNearAgreement(start, events);
    NearAgreementServes(Run(start, events));
  }

  // ----- What the other sections feed -----

  /** The options that the video and network sections feed are what these say, and WebRTC's address follows the rule. */
  ghost predicate OtherOptionsServe(live: Live) {
    && (live.rtsp.Some? ==> RtspCodecsServe(live.store, live.rtsp.value))
    && (live.onvif.Some? ==> OnvifAddressServes(live.store, live.onvif.value))
    && (live.webrtc.Some? ==> WebrtcAddressServes(live.store, live.network, live.webrtc.value))
  }

  /** The store says the configuration, but for the static root, and three services have the options built from it. */
  ghost predicate Stands(live: Live) {
    && Load(StoredRoot(live.store)) == Some(Rerooted(live).app)
    && RtspAgrees(live) && WebrtcAgrees(live) && OnvifAgrees(live)
  }

  lemma LoadedSays(store: Store, config: AppConfig, section: Section)
    requires Load(StoredRoot(store)) == Some(config) && Known(section)
    ensures section in store && SaysSection(section, store[section], config)
  {
    StoredReads(store, config);
    SectionReads(section, Get(store, section), config);
    NullReadsNothing(section);
  }

  lemma StandingServes(live: Live)
    requires Stands(live)
    ensures OtherOptionsServe(live)
  {
    var config := Rerooted(live).app;
    LoadedSays(live.store, config, Video);
    LoadedSays(live.store, config, Network);
    LoadedSays(live.store, config, Webrtc);
    if live.webrtc.Some? {
      OptionsAreDecided(live.app, live.network);
      AddressServes(live, config);
    }
  }

  lemma AddressServes(live: Live, config: AppConfig)
    requires live.webrtc.Some? && config == live.app.(staticRoot := config.staticRoot)
    requires Webrtc in live.store && SaysWebrtc(live.store[Webrtc], config)
    requires Network in live.store && SaysNetwork(live.store[Network], config)
    requires Decided(live.app.webrtcEnabled, live.app.webrtcPublicIp, live.app.networkIfname, live.app.advertiseHost,
                     live.network, live.webrtc.value.enabled, live.webrtc.value.publicIp)
    ensures WebrtcAddressServes(live.store, live.network, live.webrtc.value)
  {
    assert SaysIfname(live.store[Network], config.networkIfname);
  }

  lemma AgreeingStands(live: Live)
    requires InSync(live) && RtspAgrees(live) && WebrtcAgrees(live) && OnvifAgrees(live)
    ensures Stands(live)
  {
    SyncAnchors(live);
    AnchoredRoot(live);
  }

  lemma BootStands(store: Store, override: string, network: NetworkAnswers, up: Started)
    requires Boot(store, override, network, up).Some?
    ensures Stands(Boot(store, override, network, up).value)
  {
    var start := Boot(store, override, network, up).value;
    var stored := start.(app := Load(StoredRoot(store)).value);
    SyncAnchors(stored);
    AnchoredRoot(stored);
    assert Rerooted(start) == stored;
  }

  lemma UpdateRunStands(store: Store, override: string, network: NetworkAnswers, up: Started, events: seq<Event>)
    requires Boot(store, override, network, up).Some? && OnlyUpdates(events)
    ensures Stands(Run(Boot(store, override, network, up).value, events))
  {
    var start := Boot(store, override, network, up).value;
    var loaded := Load(StoredRoot(store)).value;
    if override == "" || override == loaded.staticRoot {
      RunsKeepAgreement(start, events);
      AgreeingStands(Run(start, events));
    } else {
      OverriddenRun(start, loaded, events);
      if FirstAccepted(start, events) == None {
        BootStands(store, override, network, up);
      } else {
        AgreeingStands(Run(start, events));
      }
    }
  }

  /** In every run of updates, with any override, so are the options that other sections feed. */
  lemma UpdateRunsServe(file: Store, defaults: Store, override: string, network: NetworkAnswers, up: Started,
                        events: seq<Event>)
    requires StartOn(file, defaults, override, network, up).Some? && OnlyUpdates(events)
    ensures OtherOptionsServe(Run(StartOn(file, defaults, override, network, up).value, events))
  {
    UpdateRunStands(Merge(file, defaults), override, network, up, events);
    StandingServes(Run(StartOn(file, defaults, override, network, up).value, events));
  }

  /** The static root served is the override, if there is one, and otherwise what the section stored at the time says. */
  lemma StaticRootServed(file: Store, defaults: Store, override: string, network: NetworkAnswers, up: Started,
                         events: seq<Event>)
    requires StartOn(file, defaults, override, network, up).Some? && Legal(events)
    ensures var live := Run(StartOn(file, defaults, override, network, up).value, events);
            && live.http.Some?
            && (override != "" ==> live.http.value.staticRoot == override)
            && (override == "" ==> StaticRootServes(live.store, live.http.value))
  {
    var start := StartOn(file, defaults, override, network, up).value;
    var live := Run(start, events);
    BootIsNear(Merge(file, defaults), override, network, up);
    RunKeepsHttp(start, events);
    if override == "" {
      RunsKeepNearAgreement(start, events);
      HttpAgreementAfterRun(start, events);
      RestartFieldsStay(start, events);
      RootStays(start, events);
      StoredSays(live, Http);
    }
  }

  lemma RootStays(start: Live, events: seq<Event>)
    requires NearlyAnchored(start) && Legal(events) && start.app.staticRoot == StoredStaticRoot(start.store)
    ensures var live := Run(start, events); live.app.staticRoot == StoredStaticRoot(live.store)
  {
    RestartFieldsStay(start, events);
    if FirstAccepted(start, events).Some? {
      AnchoredRoot(Run(start, events));
    }
  }
}
