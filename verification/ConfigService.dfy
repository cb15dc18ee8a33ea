/**
  The configuration service.  On every start it fills members that the stored file lacks from the default
  file; a request to store a value that is stored already is answered without asking anyone.
 */
module ConfigService {
  import opened Wrappers
  import opened JsonValues
  import opened AppConfiguration
  import opened ConfigLoader

  // ----- Filling in -----

  /** `current` with every member it lacks taken from `defaults`, at every depth of objects. */
  function MergeJson(current: Json, defaults: Json): Json
    decreases defaults
  {
    if current.JObject? && defaults.JObject? then
      JObject(map key | key in current.members.Keys + defaults.members.Keys ::
                if key !in current.members then defaults.members[key]
                else if key !in defaults.members then current.members[key]
                else MergeJson(current.members[key], defaults.members[key]))
    else current
  }

  /** The sections a start works with. */
  function Merge(stored: Store, defaults: Store): Store {
    map section | section in stored.Keys + defaults.Keys ::
      if section !in stored then defaults[section]
      else if section !in defaults then stored[section]
      else MergeJson(stored[section], defaults[section])
  }

  /** The code: member by member, changing `current` in place. */
  method MergeMissingFields(current: Json, defaults: Json) returns (current': Json)
    ensures current' == MergeJson(current, defaults)
    decreases defaults
  {
    current' := current;
    if !current.JObject? || !defaults.JObject? {
      return;
    }
    var members := current.members;
    var todo := defaults.members.Keys;
    while todo != {}
      invariant todo <= defaults.members.Keys
      invariant members.Keys == current.members.Keys + (defaults.members.Keys - todo)
      invariant forall key <- members ::
                  members[key] == if key in current.members && (key in todo || key !in defaults.members)
                                  then current.members[key] else MergeJson(current, defaults).members[key]
    {
      var key :| key in todo;
      if key !in members {
        members := members[key := defaults.members[key]];
      } else if members[key].JObject? && defaults.members[key].JObject? {
        var merged := MergeMissingFields(members[key], defaults.members[key]);
        members := members[key := merged];
      }
      todo := todo - {key};
    }
    current' := JObject(members);
  }

  // ----- What filling in does -----

  lemma {:induction false} MergeJsonTwice(current: Json, defaults: Json)
    ensures MergeJson(MergeJson(current, defaults), defaults) == MergeJson(current, defaults)
    decreases defaults
  {
    if current.JObject? && defaults.JObject? {
      var once := MergeJson(current, defaults);
      forall key | key in once.members && key in defaults.members
        ensures MergeJson(once.members[key], defaults.members[key]) == once.members[key]
      {
        if key in current.members {
          MergeJsonTwice(current.members[key], defaults.members[key]);
        } else {
          MergeJsonSame(defaults.members[key]);
        }
      }
      assert MergeJson(once, defaults).members == once.members;
    }
  }

  lemma {:induction false} MergeJsonSame(json: Json)
    ensures MergeJson(json, json) == json
  {
    if json.JObject? {
      forall key | key in json.members
        ensures MergeJson(json.members[key], json.members[key]) == json.members[key]
      {
        MergeJsonSame(json.members[key]);
      }
      assert MergeJson(json, json).members == json.members;
    }
  }

  /** A start on sections that a start has filled in already finds nothing to fill in. */
  lemma MergeTwice(stored: Store, defaults: Store)
    ensures Merge(Merge(stored, defaults), defaults) == Merge(stored, defaults)
  {
    var once := Merge(stored, defaults);
    forall section | section in once && section in defaults
      ensures MergeJson(once[section], defaults[section]) == once[section]
    {
      if section in stored {
        MergeJsonTwice(stored[section], defaults[section]);
      } else {
        MergeJsonSame(defaults[section]);
      }
    }
    assert Merge(once, defaults) == once;
  }

  /** A member that reads keeps its value. */
  lemma MergedMember(current: Json, defaults: Json, key: Key)
    requires current.Contains(key)
    ensures MergeJson(current, defaults).Contains(key)
    ensures MergeJson(current, defaults).members[key] ==
            if defaults.Contains(key)
            then MergeJson(current.members[key], defaults.members[key])
            else current.members[key]
  {
  }

  lemma MergedReads(current: Json, defaults: Json, key: Key, low: nat, high: nat)
    ensures ReadString(current, key).Some? ==> ReadString(MergeJson(current, defaults), key) == ReadString(current, key)
    ensures ReadBool(current, key).Some? ==> ReadBool(MergeJson(current, defaults), key) == ReadBool(current, key)
    ensures ReadUint(current, key, low, high).Some? ==>
              ReadUint(MergeJson(current, defaults), key, low, high) == ReadUint(current, key, low, high)
  {
    if current.Contains(key) {
      MergedMember(current, defaults, key);
    }
  }

  // ----- What the loader sees of it -----

  lemma MergedStream(video: Json, defaults: Json, stream: Key)
    requires ParseStreamCodec(video, stream).Some?
    ensures ParseStreamCodec(MergeJson(video, defaults), stream) == ParseStreamCodec(video, stream)
  {
    MergedMember(video, defaults, Streams);
    var streams := video.members[Streams];
    var filled := if defaults.Contains(Streams) then defaults.members[Streams] else JNull;
    MergedMember(streams, filled, stream);
    MergedReads(streams.members[stream], if filled.Contains(stream) then filled.members[stream] else JNull, CodecName, 0, 0);
  }

  lemma MergedVideo(video: Json, defaults: Json)
    requires ParseVideo(video).Some?
    ensures ParseVideo(MergeJson(video, defaults)) == ParseVideo(video)
  {
    MergedStream(video, defaults, MainStream);
    MergedStream(video, defaults, SubStream);
  }

  lemma MergedHttp(http: Json, defaults: Json)
    requires ParseHttp(http).Some?
    ensures ParseHttp(MergeJson(http, defaults)) == ParseHttp(http)
  {
    MergedReads(http, defaults, Port, 1, MAX_PORT);
    MergedReads(http, defaults, StaticRoot, 0, 0);
  }

  lemma MergedRtsp(rtsp: Json, defaults: Json)
    requires ParseRtsp(rtsp).Some?
    ensures ParseRtsp(MergeJson(rtsp, defaults)) == ParseRtsp(rtsp)
  {
    MergedReads(rtsp, defaults, Port, 1, MAX_PORT);
    MergedReads(rtsp, defaults, AuthRequired, 0, 0);
    MergedReads(rtsp, defaults, MaxSessions, 1, MAX_UINT32);
  }

  lemma MergedSnapshot(snapshot: Json, defaults: Json)
    requires ParseSnapshot(snapshot).Some?
    ensures ParseSnapshot(MergeJson(snapshot, defaults)) == ParseSnapshot(snapshot)
  {
    MergedReads(snapshot, defaults, Enabled, 0, 0);
    MergedReads(snapshot, defaults, JpegQuality, 1, 100);
    MergedReads(snapshot, defaults, TimeoutMs, 1, MAX_UINT32);
  }

  lemma MergedOnvif(onvif: Json, defaults: Json)
    requires ParseOnvif(onvif).Some?
    ensures ParseOnvif(MergeJson(onvif, defaults)) == ParseOnvif(onvif)
  {
    MergedReads(onvif, defaults, DeviceServicePort, 1, MAX_PORT);
    MergedReads(onvif, defaults, DiscoveryPort, 1, MAX_PORT);
    MergedReads(onvif, defaults, DiscoveryEnabled, 0, 0);
    MergedReads(onvif, defaults, AuthRequired, 0, 0);
    MergedReads(onvif, defaults, AdvertiseIp, 0, 0);
    MergedReads(onvif, defaults, Manufacturer, 0, 0);
    MergedReads(onvif, defaults, Model, 0, 0);
  }

  /** The default file supplies an interface name that the section lacks and that is not the built-in one. */
  predicate FillsIfname(network: Json, defaults: Json) {
    && !network.Contains(DefaultIfname)
    && ReadString(defaults, DefaultIfname).Some?
    && ReadString(defaults, DefaultIfname).value != ""
    && ReadString(defaults, DefaultIfname).value != DEFAULT_CONFIG.networkIfname
  }

  /** The default file supplies a public address that the section lacks and that is not the built-in one. */
  predicate FillsPublicIp(webrtc: Json, defaults: Json) {
    && !webrtc.Contains(PublicIp) && defaults.Contains(PublicIp)
    && defaults.members[PublicIp] != JString(DEFAULT_CONFIG.webrtcPublicIp)
  }

  lemma MergedIfname(network: Json, defaults: Json)
    requires network.JObject?
    ensures ReadString(MergeJson(network, defaults), DefaultIfname) ==
            if network.Contains(DefaultIfname) then ReadString(network, DefaultIfname)
            else ReadString(defaults, DefaultIfname)
  {
    if network.Contains(DefaultIfname) {
      MergedMember(network, defaults, DefaultIfname);
    }
  }

  lemma MergedNetwork(network: Json, defaults: Json)
    requires ParseNetwork(network, DEFAULT_CONFIG.networkIfname).Some?
    ensures (ParseNetwork(MergeJson(network, defaults), DEFAULT_CONFIG.networkIfname) ==
             ParseNetwork(network, DEFAULT_CONFIG.networkIfname)) <==> !FillsIfname(network, defaults)
  {
    MergedReads(network, defaults, AdvertiseIp, 0, 0);
    MergedIfname(network, defaults);
  }

  lemma MergedPublicIp(webrtc: Json, defaults: Json)
    requires webrtc.JObject? && ParsePublicIp(webrtc, DEFAULT_CONFIG.webrtcPublicIp).Some?
    ensures (ParsePublicIp(MergeJson(webrtc, defaults), DEFAULT_CONFIG.webrtcPublicIp) ==
             ParsePublicIp(webrtc, DEFAULT_CONFIG.webrtcPublicIp)) <==> !FillsPublicIp(webrtc, defaults)
  {
    if webrtc.Contains(PublicIp) {
      MergedMember(webrtc, defaults, PublicIp);
      MergedReads(webrtc, defaults, PublicIp, 0, 0);
    }
  }

  lemma MergedIceServers(webrtc: Json, defaults: Json)
    requires ParseIceMember(webrtc).Some?
    ensures ParseIceMember(MergeJson(webrtc, defaults)) == ParseIceMember(webrtc)
  {
    MergedMember(webrtc, defaults, IceServers);
  }

  lemma MergedWebrtc(webrtc: Json, defaults: Json)
    requires ParseWebrtc(webrtc, DEFAULT_CONFIG.webrtcPublicIp).Some?
    ensures (ParseWebrtc(MergeJson(webrtc, defaults), DEFAULT_CONFIG.webrtcPublicIp) ==
             ParseWebrtc(webrtc, DEFAULT_CONFIG.webrtcPublicIp)) <==> !FillsPublicIp(webrtc, defaults)
  {
    MergedReads(webrtc, defaults, Enabled, 0, 0);
    MergedReads(webrtc, defaults, PreferTcp, 0, 0);
    MergedReads(webrtc, defaults, LocalPortBase, 1, MAX_PORT);
    MergedReads(webrtc, defaults, MaxPeers, 1, MAX_UINT32);
    MergedPublicIp(webrtc, defaults);
    MergedIceServers(webrtc, defaults);
  }

  /** Something the loader reads would be filled in; it can check this before the start. */
  predicate FillsIn(stored: Store, defaults: Store) {
    || FillsIfname(Get(stored, Network), Get(defaults, Network))
    || FillsPublicIp(Get(stored, Webrtc), Get(defaults, Webrtc))
  }

  lemma MergedSection(section: Section, json: Json, defaults: Json)
    requires Known(section) && ParseSection(section, json).Some?
    ensures ParseSection(section, MergeJson(json, defaults)) == ParseSection(section, json) <==>
            !(section == Network && FillsIfname(json, defaults)) && !(section == Webrtc && FillsPublicIp(json, defaults))
  {
    match section
    case Video => MergedVideo(json, defaults);
    case Network => MergedNetwork(json, defaults);
    case Http => MergedHttp(json, defaults);
    case Rtsp => MergedRtsp(json, defaults);
    case Snapshot => MergedSnapshot(json, defaults);
    case Webrtc => MergedWebrtc(json, defaults);
    case Onvif => MergedOnvif(json, defaults);
  }

  lemma MergedGet(stored: Store, defaults: Store, section: Section)
    requires section in stored
    ensures Get(Merge(stored, defaults), section) == MergeJson(Get(stored, section), Get(defaults, section))
  {
  }

  lemma StoredRootAt(stored: Store, section: Section)
    requires Known(section)
    ensures Complete(StoredRoot(stored)) && StoredRoot(stored).members[section] == Get(stored, section)
  {
  }

  lemma NullReadsNothing(section: Section)
    ensures ParseSection(section, JNull).None?
  {
  }

  /** What a section of the stored root reads as once it has been filled in. */
  lemma MergedRootSection(stored: Store, defaults: Store, config: AppConfig, section: Section)
    requires Load(StoredRoot(stored)) == Some(config) && Known(section)
    ensures ParseSection(section, StoredRoot(Merge(stored, defaults)).members[section]) == Some(ViewOf(section, config)) <==>
            !(section == Network && FillsIfname(Get(stored, Network), Get(defaults, Network))) &&
            !(section == Webrtc && FillsPublicIp(Get(stored, Webrtc), Get(defaults, Webrtc)))
  {
    LoadReads(StoredRoot(stored), section, config);
    StoredRootAt(stored, section);
    StoredRootAt(Merge(stored, defaults), section);
    if section !in stored {
      NullReadsNothing(section);
      assert false;
    }
    MergedGet(stored, defaults, section);
    MergedSection(section, Get(stored, section), Get(defaults, section));
  }

  /** Filling in changes what is loaded if and only if it fills in something the loader reads. */
  lemma MergeKeepsLoad(stored: Store, defaults: Store, config: AppConfig)
    requires Load(StoredRoot(stored)) == Some(config)
    ensures Load(StoredRoot(Merge(stored, defaults))) == Some(config) <==> !FillsIn(stored, defaults)
  {
    var root := StoredRoot(Merge(stored, defaults));
    LoadDescribes(StoredRoot(stored), config);
    LoadIffDescribes(root, config);
    StoredRootAt(Merge(stored, defaults), Video);
    MergedRootSection(stored, defaults, config, Network);
    MergedRootSection(stored, defaults, config, Webrtc);
    if !FillsIn(stored, defaults) {
      forall section | Known(section)
        ensures ParseSection(section, root.members[section]) == Some(ViewOf(section, config))
      {
        MergedRootSection(stored, defaults, config, section);
      }
    }
  }
}
