/**
  What may change while the protocol services run, and which changes a service must be told of.
 */
module ConfigChange {
  import opened Wrappers
  import opened AppConfiguration

  /** The answers to a request to store a section; `Save` says that it took effect but was not written out. */
  datatype ConfigCode = Ok | Missing | Verify | Apply | Save

  /** Why a change was refused; `field` is empty when the fault lies with no one field. */
  datatype ConfigError = ConfigError(field: string, message: string)

  // ----- Fields that only a restart may change -----

  datatype RestartField =
    | HttpPort | HttpStaticRoot
    | RtspPort | RtspMaxSessions
    | WebrtcLocalPortBase
    | OnvifDevicePort | OnvifDiscoveryPort | OnvifDiscoveryEnabled

  datatype FieldValue = NumberValue(number: nat) | TextValue(text: string) | FlagValue(flag: bool)

  function ValueIn(field: RestartField, config: AppConfig): FieldValue {
    match field
    case HttpPort => NumberValue(config.httpPort)
    case HttpStaticRoot => TextValue(config.staticRoot)
    case RtspPort => NumberValue(config.rtspPort)
    case RtspMaxSessions => NumberValue(config.rtspMaxSessions)
    case WebrtcLocalPortBase => NumberValue(config.webrtcLocalPortBase)
    case OnvifDevicePort => NumberValue(config.onvifDevicePort)
    case OnvifDiscoveryPort => NumberValue(config.onvifDiscoveryPort)
    case OnvifDiscoveryEnabled => FlagValue(config.onvifDiscoveryEnabled)
  }

  /** The section a field is stored in. */
  function HomeOf(field: RestartField): Section {
    match field
    case HttpPort | HttpStaticRoot => Http
    case RtspPort | RtspMaxSessions => Rtsp
    case WebrtcLocalPortBase => Webrtc
    case OnvifDevicePort | OnvifDiscoveryPort | OnvifDiscoveryEnabled => Onvif
  }

  /** The name under which a refusal reports the field. */
  function ReportedName(field: RestartField): string {
    match field
    case HttpPort => "port"
    case HttpStaticRoot => "static_root"
    case RtspPort => "port"
    case RtspMaxSessions => "max_sessions"
    case WebrtcLocalPortBase => "local_port_base"
    case OnvifDevicePort => "device_service_port"
    case OnvifDiscoveryPort => "discovery_port"
    case OnvifDiscoveryEnabled => "discovery_enabled"
  }

  /** The four sections whose changes reach the protocol services. */
  predicate ProtocolScope(scope: Section) {
    scope == Http || scope == Rtsp || scope == Webrtc || scope == Onvif
  }

  /** The guard of a scope: it is a protocol scope and none of its own restart-only fields differ. */
  ghost predicate GuardAccepts(current: AppConfig, next: AppConfig, scope: Section) {
    && ProtocolScope(scope)
    && forall field: RestartField | HomeOf(field) == scope :: ValueIn(field, next) == ValueIn(field, current)
  }

  method RejectProtocolConfigChange(field: string) returns (code: ConfigCode, error: Option<ConfigError>)
    ensures code == Verify && error == Some(ConfigError(field, "restart required"))
  {
    return Verify, Some(ConfigError(field, "restart required"));
  }

  /**
    The guard as written.  `error` is what is stored into the caller's error structure, if anything.
    A refusal of a protocol scope names a field of that scope which really differs.
   */
  method VerifyProtocolConfigChangeScope(current: AppConfig, next: AppConfig, scope: Section)
    returns (code: ConfigCode, error: Option<ConfigError>)
    ensures code == Ok <==> GuardAccepts(current, next, scope)
    ensures code == Ok || code == Verify
    ensures code == Ok <==> error.None?
    ensures error.Some? && ProtocolScope(scope) ==>
              && error.value.message == "restart required"
              && exists field: RestartField :: HomeOf(field) == scope && ReportedName(field) == error.value.field &&
                   ValueIn(field, next) != ValueIn(field, current)
    ensures error.Some? && !ProtocolScope(scope) ==>
              error.value == ConfigError("", "unsupported protocol config change scope")
  {
    if scope == Http {
      if next.httpPort != current.httpPort {
        assert ValueIn(HttpPort, next) != ValueIn(HttpPort, current);
        code, error := RejectProtocolConfigChange("port");
        return;
      }
      if next.staticRoot != current.staticRoot {
        assert ValueIn(HttpStaticRoot, next) != ValueIn(HttpStaticRoot, current);
        code, error := RejectProtocolConfigChange("static_root");
        return;
      }
      return Ok, None;
    }
    if scope == Rtsp {
      if next.rtspPort != current.rtspPort {
        assert ValueIn(RtspPort, next) != ValueIn(RtspPort, current);
        code, error := RejectProtocolConfigChange("port");
        return;
      }
      if next.rtspMaxSessions != current.rtspMaxSessions {
        assert ValueIn(RtspMaxSessions, next) != ValueIn(RtspMaxSessions, current);
        code, error := RejectProtocolConfigChange("max_sessions");
        return;
      }
      return Ok, None;
    }
    if scope == Webrtc {
      if next.webrtcLocalPortBase != current.webrtcLocalPortBase {
        assert ValueIn(WebrtcLocalPortBase, next) != ValueIn(WebrtcLocalPortBase, current);
        code, error := RejectProtocolConfigChange("local_port_base");
        return;
      }
      return Ok, None;
    }
    if scope == Onvif {
      if next.onvifDevicePort != current.onvifDevicePort {
        assert ValueIn(OnvifDevicePort, next) != ValueIn(OnvifDevicePort, current);
        code, error := RejectProtocolConfigChange("device_service_port");
        return;
      }
      if next.onvifDiscoveryPort != current.onvifDiscoveryPort {
        assert ValueIn(OnvifDiscoveryPort, next) != ValueIn(OnvifDiscoveryPort, current);
        code, error := RejectProtocolConfigChange("discovery_port");
        return;
      }
      if next.onvifDiscoveryEnabled != current.onvifDiscoveryEnabled {
        assert ValueIn(OnvifDiscoveryEnabled, next) != ValueIn(OnvifDiscoveryEnabled, current);
        code, error := RejectProtocolConfigChange("discovery_enabled");
        return;
      }
      return Ok, None;
    }
    return Verify, Some(ConfigError("", "unsupported protocol config change scope"));
  }

  // ----- Change detectors -----

  /** The element-by-element comparison is equality of the lists. */
  method SameIceServers(left: seq<IceServer>, right: seq<IceServer>) returns (same: bool)
    ensures same <==> left == right
  {
    if |left| != |right| {
      return false;
    }
    for i := 0 to |left|
      invariant left[..i] == right[..i]
    {
      if || left[i].url != right[i].url
         || left[i].username != right[i].username
         || left[i].credential != right[i].credential {
        return false;
      }
    }
    return true;
  }

  predicate RtspChanged(current: AppConfig, next: AppConfig) {
    || current.rtspAuthRequired != next.rtspAuthRequired
    || current.rtspMainCodec != next.rtspMainCodec
    || current.rtspSubCodec != next.rtspSubCodec
  }

  predicate WebrtcChanged(current: AppConfig, next: AppConfig) {
    || current.webrtcEnabled != next.webrtcEnabled
    || current.webrtcPreferTcp != next.webrtcPreferTcp
    || current.webrtcMaxPeers != next.webrtcMaxPeers
    || current.webrtcPublicIp != next.webrtcPublicIp
    || current.networkIfname != next.networkIfname
    || current.advertiseHost != next.advertiseHost
    || current.webrtcIceServers != next.webrtcIceServers
  }

  predicate OnvifChanged(current: AppConfig, next: AppConfig) {
    || current.advertiseHost != next.advertiseHost
    || current.onvifAuthRequired != next.onvifAuthRequired
    || current.onvifManufacturer != next.onvifManufacturer
    || current.onvifModel != next.onvifModel
    || current.httpPort != next.httpPort
  }

  method IsWebrtcConfigChanged(current: AppConfig, next: AppConfig) returns (changed: bool)
    ensures changed == WebrtcChanged(current, next)
  {
    var sameServers := SameIceServers(current.webrtcIceServers, next.webrtcIceServers);
    return
      || current.webrtcEnabled != next.webrtcEnabled
      || current.webrtcPreferTcp != next.webrtcPreferTcp
      || current.webrtcMaxPeers != next.webrtcMaxPeers
      || current.webrtcPublicIp != next.webrtcPublicIp
      || current.networkIfname != next.networkIfname
      || current.advertiseHost != next.advertiseHost
      || !sameServers;
  }
}
