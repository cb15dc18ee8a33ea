/**
  When an update is refused, with which answer, and what the refusal names: in terms of fields and JSON members.
 */
module UpdateAnswers {
  import opened Wrappers
  import opened JsonValues
  import opened AppConfiguration
  import opened ConfigLoader
  import opened ConfigChange
  import opened Documents
  import opened ProtocolOptions
  import opened Reconfiguration
  import opened ServedOptions

  // ----- The guard and the detectors -----

  /** The guard of each scope, field by field; no other scope is let through. */
  lemma GuardIff(current: AppConfig, next: AppConfig, scope: Section)
    ensures GuardAccepts(current, next, scope) <==>
            || (scope == Http && next.httpPort == current.httpPort && next.staticRoot == current.staticRoot)
            || (scope == Rtsp && next.rtspPort == current.rtspPort && next.rtspMaxSessions == current.rtspMaxSessions)
            || (scope == Webrtc && next.webrtcLocalPortBase == current.webrtcLocalPortBase)
            || (scope == Onvif && next.onvifDevicePort == current.onvifDevicePort &&
                next.onvifDiscoveryPort == current.onvifDiscoveryPort &&
                next.onvifDiscoveryEnabled == current.onvifDiscoveryEnabled)
  {
    if GuardAccepts(current, next, scope) {
      GuardedFields(current, next, scope);
    }
  }

  /**
    A change that the guard lets through is found by the detector of RTSP or ONVIF if and only if it changes the
    options of that service, and by that of WebRTC if and only if it changes what the webrtc or the network
    section feeds.
   */
  lemma DetectedIff(current: AppConfig, next: AppConfig, scope: Section)
    requires GuardAccepts(current, next, scope) && next.listenIp == current.listenIp
    ensures scope == Rtsp ==> (RtspChanged(current, next) <==> BuildRtspOptions(next) != BuildRtspOptions(current))
    ensures scope == Onvif ==> (OnvifChanged(current, next) <==> BuildOnvifOptions(next) != BuildOnvifOptions(current))
    ensures scope == Webrtc ==>
              (WebrtcChanged(current, next) <==>
                ViewOf(Webrtc, next) != ViewOf(Webrtc, current) || ViewOf(Network, next) != ViewOf(Network, current))
  {
    GuardedFields(current, next, scope);
  }

  // ----- The answers -----

  lemma DecisionIs(live: Live, scope: Section, next: Option<AppConfig>, accept: bool)
    ensures Decide(live, scope, next, accept).0 ==
            if next.None? then Apply
            else if !GuardAccepts(live.app, next.value, scope) then Verify
            else if Changed(scope, live.app, next.value) && !(Present(live, scope) && accept) then Apply
            else Ok
  {
  }

  lemma ForwardedAnswer(live: Live, scope: Section, value: Json, accept: bool, saves: bool, next: Option<AppConfig>)
    requires Forwarded(live, scope, value) && ProtocolScope(scope) && NextConfig(live, scope, value) == next
    ensures SetCode(live, scope, value, accept, saves) ==
            if next.None? || !GuardAccepts(live.app, next.value, scope) then Verify
            else if Decide(live, scope, next, accept).0 != Ok then Decide(live, scope, next, accept).0
            else if saves then Ok else Save
  {
  }

  /** Which answer a request gets. */
  lemma AnswersExactly(live: Live, section: Section, value: Json, accept: bool, saves: bool)
    ensures var code := SetCode(live, section, value, accept, saves);
            var next := NextConfig(live, section, value);
            if section !in live.store then code == Missing
            else if live.store[section] == value then code == Ok
            else if section == Http || section == Rtsp || section == Webrtc || section == Onvif then
              if next.None? || !GuardAccepts(live.app, next.value, section) then code == Verify
              else if Changed(section, live.app, next.value) && !(Present(live, section) && accept) then code == Apply
              else code == if saves then Ok else Save
            else code == if saves then Ok else Save
  {
    if Forwarded(live, section, value) && ProtocolScope(section) {
      ForwardedAnswer(live, section, value, accept, saves, NextConfig(live, section, value));
      DecisionIs(live, section, NextConfig(live, section, value), accept);
    }
  }

  // ----- What a refusal names -----

  /** The JSON names of the restart-only members. */
  function MemberName(key: Key): string {
    match key
    case Port => "port"
    case StaticRoot => "static_root"
    case MaxSessions => "max_sessions"
    case LocalPortBase => "local_port_base"
    case DeviceServicePort => "device_service_port"
    case DiscoveryPort => "discovery_port"
    case DiscoveryEnabled => "discovery_enabled"
    case _ => ""
  }

  function KeyOf(field: RestartField): Key {
    match field
    case HttpPort | RtspPort => Port
    case HttpStaticRoot => StaticRoot
    case RtspMaxSessions => MaxSessions
    case WebrtcLocalPortBase => LocalPortBase
    case OnvifDevicePort => DeviceServicePort
    case OnvifDiscoveryPort => DiscoveryPort
    case OnvifDiscoveryEnabled => DiscoveryEnabled
  }

  /** The two sections have the member, with different values. */
  predicate MemberDiffers(left: Json, right: Json, key: Key) {
    left.Contains(key) && right.Contains(key) && left.members[key] != right.members[key]
  }

  function FieldJson(value: FieldValue): Json {
    match value
    case NumberValue(number) => JNumber(number)
    case TextValue(text) => JString(text)
    case FlagValue(flag) => JBool(flag)
  }

  lemma FieldIsMember(scope: Section, json: Json, config: AppConfig, field: RestartField)
    requires SaysSection(scope, json, config) && HomeOf(field) == scope
    ensures json.Contains(KeyOf(field)) && json.members[KeyOf(field)] == FieldJson(ValueIn(field, config))
  {
  }

  lemma NamesAgree(field: RestartField)
    ensures ReportedName(field) == MemberName(KeyOf(field)) && ReportedName(field) != ""
  {
  }

  lemma ValueSays(live: Live, scope: Section, value: Json, next: AppConfig)
    requires NextConfig(live, scope, value) == Some(next) && ProtocolScope(scope)
    ensures SaysSection(scope, value, next)
  {
    NextReads(live.store, scope, value, next);
    SectionReads(scope, value, next);
    assert ParseSection(scope, Pick(live.store, scope, value, scope)) == Some(ViewOf(scope, next));
  }

  lemma FieldsTell(scope: Section, stored: Json, value: Json, current: AppConfig, next: AppConfig, field: RestartField)
    requires SaysSection(scope, stored, current) && SaysSection(scope, value, next) && HomeOf(field) == scope
    requires ValueIn(field, next) != ValueIn(field, current)
    ensures MemberDiffers(stored, value, KeyOf(field))
  {
    FieldIsMember(scope, stored, current, field);
    FieldIsMember(scope, value, next, field);
  }

  lemma DifferingField(live: Live, scope: Section, value: Json, next: AppConfig, field: RestartField)
    requires Anchored(live) && NextConfig(live, scope, value) == Some(next)
    requires ProtocolScope(scope) && HomeOf(field) == scope && ValueIn(field, next) != ValueIn(field, live.app)
    ensures scope in live.store && MemberDiffers(live.store[scope], value, KeyOf(field))
  {
    AnchoredRoot(live);
    StoredSays(live, scope);
    ValueSays(live, scope, value, next);
    FieldsTell(scope, live.store[scope], value, live.app, next, field);
  }

  /**
    A name that the guard reports is that of a JSON member in which the value offered and the stored section
    differ.
   */
  lemma RefusalNamesMember(live: Live, scope: Section, value: Json, next: AppConfig, name: string)
    requires Anchored(live) && NextConfig(live, scope, value) == Some(next) && ProtocolScope(scope)
    requires exists field: RestartField ::
               HomeOf(field) == scope && ReportedName(field) == name && ValueIn(field, next) != ValueIn(field, live.app)
    ensures scope in live.store
    ensures exists key :: MemberName(key) == name && name != "" && MemberDiffers(live.store[scope], value, key)
  {
    var field: RestartField :|
      HomeOf(field) == scope && ReportedName(field) == name && ValueIn(field, next) != ValueIn(field, live.app);
    DifferingField(live, scope, value, next, field);
    NamesAgree(field);
  }
}
