/**
  What filling in from the default file achieves.  A stored file that lacks sections or members, as one written by
  an earlier version does, still starts: every field comes from the file where the file has its member, and from
  the default file otherwise.
 */
module FillingIn {
  import opened Wrappers
  import opened JsonValues
  import opened AppConfiguration
  import opened ConfigLoader
  import opened ConfigService
  import opened ProtocolOptions
  import opened Reconfiguration
  import opened Restarts

  // ----- Files with something taken out -----

  /** `part` is `whole` with members removed, at any depth of objects. */
  predicate Pruned(part: Json, whole: Json)
    decreases whole
  {
    if whole.JObject? then
      && part.JObject?
      && forall key | key in part.members :: key in whole.members && Pruned(part.members[key], whole.members[key])
    else
      part == whole
  }

  /** The file has some of the sections of `whole`, each pruned. */
  predicate PrunedFile(file: Store, whole: Store) {
    forall section | section in file :: section in whole && Pruned(file[section], whole[section])
  }

  // ----- One member -----

  /** The section of the file has the member. */
  predicate HasMember(json: Json, key: Key) {
    json.JObject? && key in json.members
  }

  /** What a member reads as after filling in: as in the whole where the part has it, else as in the defaults. */
  lemma FilledString(part: Json, whole: Json, defaults: Json, key: Key)
    requires Pruned(part, whole) && ReadString(whole, key).Some? && ReadString(defaults, key).Some?
    ensures ReadString(MergeJson(part, defaults), key) ==
            if HasMember(part, key) then ReadString(whole, key) else ReadString(defaults, key)
  {
    if HasMember(part, key) {
      MergedMember(part, defaults, key);
    }
  }

  lemma FilledBool(part: Json, whole: Json, defaults: Json, key: Key)
    requires Pruned(part, whole) && ReadBool(whole, key).Some? && ReadBool(defaults, key).Some?
    ensures ReadBool(MergeJson(part, defaults), key) ==
            if HasMember(part, key) then ReadBool(whole, key) else ReadBool(defaults, key)
  {
    if HasMember(part, key) {
      MergedMember(part, defaults, key);
    }
  }

  lemma FilledUint(part: Json, whole: Json, defaults: Json, key: Key, low: nat, high: nat)
    requires Pruned(part, whole) && ReadUint(whole, key, low, high).Some? && ReadUint(defaults, key, low, high).Some?
    ensures ReadUint(MergeJson(part, defaults), key, low, high) ==
            if HasMember(part, key) then ReadUint(whole, key, low, high) else ReadUint(defaults, key, low, high)
  {
    if HasMember(part, key) {
      MergedMember(part, defaults, key);
    }
  }

  // ----- Section by section -----

  /** The stream has its codec in the file. */
  predicate HasCodec(video: Json, stream: Key) {
    && HasMember(video, Streams) && HasMember(video.members[Streams], stream)
    && HasMember(video.members[Streams].members[stream], CodecName)
  }

  lemma FilledStream(part: Json, whole: Json, defaults: Json, stream: Key)
    requires Pruned(part, whole)
    requires ParseStreamCodec(whole, stream).Some? && ParseStreamCodec(defaults, stream).Some?
    ensures ParseStreamCodec(MergeJson(part, defaults), stream) ==
            if HasCodec(part, stream) then ParseStreamCodec(whole, stream) else ParseStreamCodec(defaults, stream)
  {
    if HasMember(part, Streams) {
      MergedMember(part, defaults, Streams);
      var streams := part.members[Streams];
      assert Pruned(streams, whole.members[Streams]);
      if HasMember(streams, stream) {
        MergedMember(streams, defaults.members[Streams], stream);
        assert Pruned(streams.members[stream], whole.members[Streams].members[stream]);
        FilledString(streams.members[stream], whole.members[Streams].members[stream],
                     defaults.members[Streams].members[stream], CodecName);
      }
    }
  }

  lemma FilledVideo(part: Json, whole: Json, defaults: Json, w: AppConfig, d: AppConfig)
    requires Pruned(part, whole)
    requires ParseVideo(whole) == Some(ViewOf(Video, w)) && ParseVideo(defaults) == Some(ViewOf(Video, d))
    ensures ParseVideo(MergeJson(part, defaults)) ==
            Some(VideoView(if HasCodec(part, MainStream) then w.rtspMainCodec else d.rtspMainCodec,
                           if HasCodec(part, SubStream) then w.rtspSubCodec else d.rtspSubCodec))
  {
    FilledStream(part, whole, defaults, MainStream);
    FilledStream(part, whole, defaults, SubStream);
  }

  lemma FilledIfname(part: Json, whole: Json, defaults: Json)
    requires Pruned(part, whole) && whole.JObject?
    ensures ReadString(MergeJson(part, defaults), DefaultIfname) ==
            if HasMember(part, DefaultIfname) then ReadString(whole, DefaultIfname) else ReadString(defaults, DefaultIfname)
  {
    if HasMember(part, DefaultIfname) {
      MergedMember(part, defaults, DefaultIfname);
      assert Pruned(part.members[DefaultIfname], whole.members[DefaultIfname]);
    }
  }

  lemma FilledNetwork(part: Json, whole: Json, defaults: Json, w: AppConfig, d: AppConfig)
    requires Pruned(part, whole)
    requires ParseSection(Network, whole) == Some(ViewOf(Network, w))
    requires ParseSection(Network, defaults) == Some(ViewOf(Network, d))
    ensures ParseSection(Network, MergeJson(part, defaults)) ==
            Some(NetworkView(if HasMember(part, AdvertiseIp) then w.advertiseHost else d.advertiseHost,
                             if HasMember(part, DefaultIfname) then w.networkIfname else d.networkIfname))
  {
    FilledString(part, whole, defaults, AdvertiseIp);
    FilledIfname(part, whole, defaults);
  }

  lemma FilledHttp(part: Json, whole: Json, defaults: Json, w: AppConfig, d: AppConfig)
    requires Pruned(part, whole)
    requires ParseHttp(whole) == Some(ViewOf(Http, w)) && ParseHttp(defaults) == Some(ViewOf(Http, d))
    ensures ParseHttp(MergeJson(part, defaults)) ==
            Some(HttpView(if HasMember(part, Port) then w.httpPort else d.httpPort,
                          if HasMember(part, StaticRoot) then w.staticRoot else d.staticRoot))
  {
    FilledUint(part, whole, defaults, Port, 1, MAX_PORT);
    FilledString(part, whole, defaults, StaticRoot);
  }

  lemma FilledRtsp(part: Json, whole: Json, defaults: Json, w: AppConfig, d: AppConfig)
    requires Pruned(part, whole)
    requires ParseRtsp(whole) == Some(ViewOf(Rtsp, w)) && ParseRtsp(defaults) == Some(ViewOf(Rtsp, d))
    ensures ParseRtsp(MergeJson(part, defaults)) ==
            Some(RtspView(if HasMember(part, Port) then w.rtspPort else d.rtspPort,
                          if HasMember(part, AuthRequired) then w.rtspAuthRequired else d.rtspAuthRequired,
                          if HasMember(part, MaxSessions) then w.rtspMaxSessions else d.rtspMaxSessions))
  {
    FilledUint(part, whole, defaults, Port, 1, MAX_PORT);
    FilledBool(part, whole, defaults, AuthRequired);
    FilledUint(part, whole, defaults, MaxSessions, 1, MAX_UINT32);
  }

  lemma FilledSnapshot(part: Json, whole: Json, defaults: Json)
    requires Pruned(part, whole) && ParseSnapshot(whole).Some? && ParseSnapshot(defaults).Some?
    ensures ParseSnapshot(MergeJson(part, defaults)).Some?
  {
    FilledBool(part, whole, defaults, Enabled);
    FilledUint(part, whole, defaults, JpegQuality, 1, 100);
    FilledUint(part, whole, defaults, TimeoutMs, 1, MAX_UINT32);
  }

  lemma FilledPublicIp(part: Json, whole: Json, defaults: Json)
    requires Pruned(part, whole) && whole.JObject? && defaults.JObject?
    requires ParsePublicIp(whole, DEFAULT_CONFIG.webrtcPublicIp).Some?
    requires ParsePublicIp(defaults, DEFAULT_CONFIG.webrtcPublicIp).Some?
    ensures ParsePublicIp(MergeJson(part, defaults), DEFAULT_CONFIG.webrtcPublicIp) ==
            if HasMember(part, PublicIp) then ParsePublicIp(whole, DEFAULT_CONFIG.webrtcPublicIp)
            else ParsePublicIp(defaults, DEFAULT_CONFIG.webrtcPublicIp)
  {
    if HasMember(part, PublicIp) {
      MergedMember(part, defaults, PublicIp);
      assert Pruned(part.members[PublicIp], whole.members[PublicIp]);
    }
  }

  lemma FilledServers(part: Json, whole: Json, defaults: Json)
    requires Pruned(part, whole) && ParseIceMember(whole).Some? && ParseIceMember(defaults).Some?
    ensures ParseIceMember(MergeJson(part, defaults)) ==
            if HasMember(part, IceServers) then ParseIceMember(whole) else ParseIceMember(defaults)
  {
    if HasMember(part, IceServers) {
      MergedMember(part, defaults, IceServers);
      assert Pruned(part.members[IceServers], whole.members[IceServers]);
    }
  }

  lemma FilledWebrtc(part: Json, whole: Json, defaults: Json, w: AppConfig, d: AppConfig)
    requires Pruned(part, whole)
    requires ParseSection(Webrtc, whole) == Some(ViewOf(Webrtc, w))
    requires ParseSection(Webrtc, defaults) == Some(ViewOf(Webrtc, d))
    ensures ParseSection(Webrtc, MergeJson(part, defaults)) ==
            Some(WebrtcView(if HasMember(part, Enabled) then w.webrtcEnabled else d.webrtcEnabled,
                            if HasMember(part, PreferTcp) then w.webrtcPreferTcp else d.webrtcPreferTcp,
                            if HasMember(part, LocalPortBase) then w.webrtcLocalPortBase else d.webrtcLocalPortBase,
                            if HasMember(part, MaxPeers) then w.webrtcMaxPeers else d.webrtcMaxPeers,
                            if HasMember(part, PublicIp) then w.webrtcPublicIp else d.webrtcPublicIp,
                            if HasMember(part, IceServers) then w.webrtcIceServers else d.webrtcIceServers))
  {
    FilledBool(part, whole, defaults, Enabled);
    FilledBool(part, whole, defaults, PreferTcp);
    FilledUint(part, whole, defaults, LocalPortBase, 1, MAX_PORT);
    FilledUint(part, whole, defaults, MaxPeers, 1, MAX_UINT32);
    FilledPublicIp(part, whole, defaults);
    FilledServers(part, whole, defaults);
  }

  lemma FilledOnvif(part: Json, whole: Json, defaults: Json, w: AppConfig, d: AppConfig)
    requires Pruned(part, whole)
    requires ParseOnvif(whole) == Some(ViewOf(Onvif, w)) && ParseOnvif(defaults) == Some(ViewOf(Onvif, d))
    ensures ParseOnvif(MergeJson(part, defaults)) ==
            Some(OnvifView(if HasMember(part, DeviceServicePort) then w.onvifDevicePort else d.onvifDevicePort,
                           if HasMember(part, DiscoveryPort) then w.onvifDiscoveryPort else d.onvifDiscoveryPort,
                           if HasMember(part, DiscoveryEnabled) then w.onvifDiscoveryEnabled else d.onvifDiscoveryEnabled,
                           if HasMember(part, AuthRequired) then w.onvifAuthRequired else d.onvifAuthRequired,
                           if HasMember(part, Manufacturer) then w.onvifManufacturer else d.onvifManufacturer,
                           if HasMember(part, Model) then w.onvifModel else d.onvifModel))
  {
    FilledUint(part, whole, defaults, DeviceServicePort, 1, MAX_PORT);
    FilledUint(part, whole, defaults, DiscoveryPort, 1, MAX_PORT);
    FilledBool(part, whole, defaults, DiscoveryEnabled);
    FilledBool(part, whole, defaults, AuthRequired);
    FilledString(part, whole, defaults, AdvertiseIp);
    FilledString(part, whole, defaults, Manufacturer);
    FilledString(part, whole, defaults, Model);
  }

  // ----- The whole file -----

  /** The configuration whose fields come from the file where it has their members, else from the other. */
  function Mixed(file: Store, whole: AppConfig, other: AppConfig): AppConfig {
    var video := Get(file, Video);
    var network := Get(file, Network);
    var http := Get(file, Http);
    var rtsp := Get(file, Rtsp);
    var webrtc := Get(file, Webrtc);
    var onvif := Get(file, Onvif);
    AppConfig("0.0.0.0",
              (if HasMember(network, AdvertiseIp) then whole else other).advertiseHost,
              (if HasMember(http, StaticRoot) then whole else other).staticRoot,
              (if HasMember(onvif, Manufacturer) then whole else other).onvifManufacturer,
              (if HasMember(onvif, Model) then whole else other).onvifModel,
              (if HasMember(network, DefaultIfname) then whole else other).networkIfname,
              (if HasMember(http, Port) then whole else other).httpPort,
              (if HasMember(rtsp, Port) then whole else other).rtspPort,
              (if HasMember(onvif, DeviceServicePort) then whole else other).onvifDevicePort,
              (if HasMember(onvif, DiscoveryPort) then whole else other).onvifDiscoveryPort,
              (if HasMember(webrtc, LocalPortBase) then whole else other).webrtcLocalPortBase,
              (if HasMember(rtsp, MaxSessions) then whole else other).rtspMaxSessions,
              (if HasMember(webrtc, MaxPeers) then whole else other).webrtcMaxPeers,
              (if HasMember(webrtc, PublicIp) then whole else other).webrtcPublicIp,
              (if HasCodec(video, MainStream) then whole else other).rtspMainCodec,
              (if HasCodec(video, SubStream) then whole else other).rtspSubCodec,
              (if HasMember(rtsp, AuthRequired) then whole else other).rtspAuthRequired,
              (if HasMember(onvif, AuthRequired) then whole else other).onvifAuthRequired,
              (if HasMember(onvif, DiscoveryEnabled) then whole else other).onvifDiscoveryEnabled,
              (if HasMember(webrtc, Enabled) then whole else other).webrtcEnabled,
              (if HasMember(webrtc, PreferTcp) then whole else other).webrtcPreferTcp,
              (if HasMember(webrtc, IceServers) then whole else other).webrtcIceServers)
  }

  lemma FilledSourceSection(file: Store, whole: Json, defaults: Json, w: AppConfig, d: AppConfig, section: Section)
    requires section in file && Pruned(file[section], whole)
    requires section == Video || section == Network || section == Http || section == Snapshot
    requires ParseSection(section, whole) == Some(ViewOf(section, w))
    requires ParseSection(section, defaults) == Some(ViewOf(section, d))
    ensures ParseSection(section, MergeJson(file[section], defaults)) == Some(ViewOf(section, Mixed(file, w, d)))
  {
    match section
    case Video => FilledVideo(file[section], whole, defaults, w, d);
    case Network => FilledNetwork(file[section], whole, defaults, w, d);
    case Http => FilledHttp(file[section], whole, defaults, w, d);
    case Snapshot => FilledSnapshot(file[section], whole, defaults);
  }

  lemma FilledServiceSection(file: Store, whole: Json, defaults: Json, w: AppConfig, d: AppConfig, section: Section)
    requires section in file && Pruned(file[section], whole)
    requires section == Rtsp || section == Webrtc || section == Onvif
    requires ParseSection(section, whole) == Some(ViewOf(section, w))
    requires ParseSection(section, defaults) == Some(ViewOf(section, d))
    ensures ParseSection(section, MergeJson(file[section], defaults)) == Some(ViewOf(section, Mixed(file, w, d)))
  {
    match section
    case Rtsp => FilledRtsp(file[section], whole, defaults, w, d);
    case Webrtc => FilledWebrtc(file[section], whole, defaults, w, d);
    case Onvif => FilledOnvif(file[section], whole, defaults, w, d);
  }

  lemma MissingSection(file: Store, w: AppConfig, d: AppConfig, section: Section)
    requires section !in file && !section.Other?
    ensures ViewOf(section, Mixed(file, w, d)) == ViewOf(section, d)
  {
  }

  lemma MergedSectionReads(file: Store, whole: Store, defaults: Store, w: AppConfig, d: AppConfig, section: Section)
    requires Load(StoredRoot(whole)) == Some(w) && Load(StoredRoot(defaults)) == Some(d)
    requires PrunedFile(file, whole) && !section.Other?
    ensures ParseSection(section, Get(Merge(file, defaults), section)) == Some(ViewOf(section, Mixed(file, w, d)))
  {
    StoredReads(whole, w);
    StoredReads(defaults, d);
    assert Known(section);
    NullReadsNothing(section);
    if section in file {
      MergedGet(file, defaults, section);
      if section == Rtsp || section == Webrtc || section == Onvif {
        FilledServiceSection(file, whole[section], Get(defaults, section), w, d, section);
      } else {
        FilledSourceSection(file, whole[section], Get(defaults, section), w, d, section);
      }
    } else {
      MissingSection(file, w, d, section);
    }
  }

  lemma SectionsLoad(store: Store, config: AppConfig)
    requires config.listenIp == DEFAULT_CONFIG.listenIp
    requires forall section | Known(section) :: ParseSection(section, Get(store, section)) == Some(ViewOf(section, config))
    ensures Load(StoredRoot(store)) == Some(config)
  {
    forall section | Known(section)
      ensures ParseSection(section, StoredRoot(store).members[section]) == Some(ViewOf(section, config))
    {
      StoredRootAt(store, section);
    }
    LoadIffDescribes(StoredRoot(store), config);
  }

  /**
    A file that differs from a loadable one only in what it lacks loads once it is filled in from a loadable
    default file, and each field comes from the file where the file has its member, from the default file otherwise.
   */
  lemma PrunedFileLoads(file: Store, whole: Store, defaults: Store, w: AppConfig, d: AppConfig)
    requires Load(StoredRoot(whole)) == Some(w) && Load(StoredRoot(defaults)) == Some(d)
    requires PrunedFile(file, whole)
    ensures Load(StoredRoot(Merge(file, defaults))) == Some(Mixed(file, w, d))
  {
    forall section | Known(section)
      ensures ParseSection(section, Get(Merge(file, defaults), section)) == Some(ViewOf(section, Mixed(file, w, d)))
    {
      MergedSectionReads(file, whole, defaults, w, d, section);
    }
    SectionsLoad(Merge(file, defaults), Mixed(file, w, d));
  }

  /** So a start on such a file succeeds, with the services on that configuration. */
  lemma PrunedFileStarts(file: Store, whole: Store, defaults: Store, override: string, network: NetworkAnswers, up: Started,
                         w: AppConfig, d: AppConfig)
    requires Load(StoredRoot(whole)) == Some(w) && Load(StoredRoot(defaults)) == Some(d)
    requires PrunedFile(file, whole)
    ensures var mixed := Mixed(file, w, d);
            StartOn(file, defaults, override, network, up) ==
            Some(Fresh(Merge(file, defaults), if override == "" then mixed else mixed.(staticRoot := override), network, up))
  {
    PrunedFileLoads(file, whole, defaults, w, d);
  }

  /** With no stored file at all, a start is a start on the default file. */
  lemma FirstStart(defaults: Store, override: string, network: NetworkAnswers, up: Started)
    ensures Merge(map[], defaults) == defaults
    ensures StartOn(map[], defaults, override, network, up) == Boot(defaults, override, network, up)
  {
  }

  /** Nothing that the file has is lost: every member keeps its value, unless both sides have an object there. */
  lemma FileIsKept(file: Store, defaults: Store, section: Section, key: Key)
    requires section in file && file[section].JObject? && key in file[section].members
    ensures section in Merge(file, defaults) && Merge(file, defaults)[section].JObject?
    ensures key in Merge(file, defaults)[section].members
    ensures !file[section].members[key].JObject? ==>
              Merge(file, defaults)[section].members[key] == file[section].members[key]
  {
    if section in defaults {
      MergedMember(file[section], defaults[section], key);
    }
  }

  /** Nothing appears that neither side has. */
  lemma NothingIsInvented(file: Store, defaults: Store, section: Section, key: Key)
    requires section in Merge(file, defaults) && Merge(file, defaults)[section].Contains(key)
    ensures (section in file && file[section].Contains(key)) || (section in defaults && defaults[section].Contains(key))
  {
  }
}
