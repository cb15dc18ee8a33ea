/**
  The options handed to the protocol services.  Option fields that are the same constant for every
  configuration are not modelled.  For WebRTC the address rule is stated as a list of candidates
  in order of priority; the branching code is proved to pick the first usable one.
 */
module ProtocolOptions {
  import opened Wrappers
  import opened AppConfiguration
  import opened Ipv4

  datatype RtspOptions = RtspOptions(
    listenIp: string, listenPort: nat, maxSessions: nat, enableAuth: bool,
    mainVideoCodec: Codec, subVideoCodec: Codec)

  datatype WebrtcOptions = WebrtcOptions(
    enabled: bool, localPortBase: nat, maxPeers: nat, preferTcp: bool,
    publicIp: string, iceServers: seq<IceServer>)

  datatype OnvifOptions = OnvifOptions(
    listenIp: string, advertiseIp: string, deviceServicePort: nat, discoveryPort: nat,
    discoveryEnabled: bool, enableAuth: bool, manufacturer: string, model: string, httpPort: nat)

  datatype HttpOptions = HttpOptions(listenIp: string, listenPort: nat, staticRoot: string)

  /** The address each network interface reports; the network service itself may be missing. */
  type NetworkAnswers = Option<map<string, string>>

  function BuildRtspOptions(config: AppConfig): RtspOptions {
    RtspOptions(config.listenIp, config.rtspPort, config.rtspMaxSessions, config.rtspAuthRequired,
                config.rtspMainCodec, config.rtspSubCodec)
  }

  function BuildOnvifOptions(config: AppConfig): OnvifOptions {
    OnvifOptions(config.listenIp, config.advertiseHost, config.onvifDevicePort, config.onvifDiscoveryPort,
                 config.onvifDiscoveryEnabled, config.onvifAuthRequired, config.onvifManufacturer,
                 config.onvifModel, config.httpPort)
  }

  function BuildHttpOptions(config: AppConfig): HttpOptions {
    HttpOptions(config.listenIp, config.httpPort, config.staticRoot)
  }

  // ----- The WebRTC address -----

  function LowerChar(c: char): char {
    if 'A' <= c <= 'Z' then (c as int + 32) as char else c
  }

  function Lower(text: string): string {
    seq(|text|, i requires 0 <= i < |text| => LowerChar(text[i]))
  }

  predicate IsAuto(publicIp: string) {
    publicIp == "" || publicIp == "0.0.0.0" || Lower(publicIp) == "auto"
  }

  /** A dotted quad outside the "this network" and loopback blocks. */
  predicate Usable(address: string) {
    var quad := ParseQuad(address);
    quad.Some? && |quad.value| == 4 && quad.value[0] != 0 && quad.value[0] != 127
  }

  function InterfaceAddress(answers: map<string, string>, ifname: string): string {
    if ifname in answers then answers[ifname] else ""
  }

  /** The addresses to try, best first: an explicit one stands alone. */
  function Candidates(config: AppConfig, network: NetworkAnswers): seq<string> {
    if !IsAuto(config.webrtcPublicIp) then [config.webrtcPublicIp]
    else
      (if network.Some? then [InterfaceAddress(network.value, config.networkIfname)] else [])
      + [config.advertiseHost]
  }

  function FirstUsable(addresses: seq<string>): Option<string> {
    if addresses == [] then None
    else if Usable(addresses[0]) then Some(addresses[0])
    else FirstUsable(addresses[1..])
  }

  function ResolvedPublicIp(config: AppConfig, network: NetworkAnswers): string {
    if !config.webrtcEnabled then config.webrtcPublicIp
    else
      match FirstUsable(Candidates(config, network))
      case Some(address) => address
      case None => ""
  }

  function WebrtcOptionsFor(config: AppConfig, network: NetworkAnswers): WebrtcOptions {
    WebrtcOptions(
      config.webrtcEnabled && FirstUsable(Candidates(config, network)).Some?,
      config.webrtcLocalPortBase, config.webrtcMaxPeers, config.webrtcPreferTcp,
      ResolvedPublicIp(config, network), config.webrtcIceServers)
  }

  // ----- The code -----

  method ToLowerAscii(text: string) returns (lower: string)
    ensures lower == Lower(text)
  {
    lower := text;
    for i := 0 to |text|
      invariant |lower| == |text|
      invariant forall j :: 0 <= j < |text| ==> lower[j] == if j < i then LowerChar(text[j]) else text[j]
    {
      lower := lower[i := LowerChar(lower[i])];
    }
  }

  method IsAutoWebrtcPublicIp(publicIp: string) returns (auto: bool)
    ensures auto == IsAuto(publicIp)
  {
    if publicIp == "" || publicIp == "0.0.0.0" {
      return true;
    }
    var lower := ToLowerAscii(publicIp);
    return lower == "auto";
  }

  method IsUsableWebrtcPublicIp(publicIp: string) returns (usable: bool)
    ensures usable == Usable(publicIp)
  {
    var octets := new int[4](i => 0);
    var parsed := ParseIpv4Octets(publicIp, octets);
    if !parsed {
      return false;
    }
    assert octets[..][0] == octets[0];
    return octets[0] != 0 && octets[0] != 127;
  }

  lemma UsableNotEmpty(address: string)
    requires Usable(address)
    ensures address != ""
  {
  }

  lemma NoInterface(host: string)
    ensures FirstUsable([host]) == if Usable(host) then Some(host) else None
  {
    assert [host][1..] == [];
  }

  lemma InterfaceThenHost(address: string, host: string)
    ensures FirstUsable([address] + [host]) ==
            if Usable(address) then Some(address) else if Usable(host) then Some(host) else None
  {
    assert ([address] + [host])[1..] == [host];
    NoInterface(host);
  }

  method ResolveWebrtcPublicIp(config: AppConfig, network: NetworkAnswers) returns (publicIp: string)
    ensures publicIp == ResolvedPublicIp(config, network)
    ensures config.webrtcEnabled ==> (publicIp != "" <==> FirstUsable(Candidates(config, network)).Some?)
  {
    if !config.webrtcEnabled {
      return config.webrtcPublicIp;
    }
    NoInterface(config.webrtcPublicIp);
    NoInterface(config.advertiseHost);
    var auto := IsAutoWebrtcPublicIp(config.webrtcPublicIp);
    if !auto {
      var usable := IsUsableWebrtcPublicIp(config.webrtcPublicIp);
      if !usable {
        return "";
      }
      return config.webrtcPublicIp;
    }
    assert [] + [config.advertiseHost] == [config.advertiseHost];
    if network.Some? {
      var address := InterfaceAddress(network.value, config.networkIfname);
      InterfaceThenHost(address, config.advertiseHost);
      var usable := IsUsableWebrtcPublicIp(address);
      if usable {
        return address;
      }
    }
    var usable := IsUsableWebrtcPublicIp(config.advertiseHost);
    if usable {
      return config.advertiseHost;
    }
    return "";
  }

  method BuildWebrtcOptions(config: AppConfig, network: NetworkAnswers) returns (options: WebrtcOptions)
    ensures options == WebrtcOptionsFor(config, network)
  {
    var enabled := config.webrtcEnabled;
    var publicIp := ResolveWebrtcPublicIp(config, network);
    if enabled && publicIp == "" {
      enabled := false;
    }
    return WebrtcOptions(enabled, config.webrtcLocalPortBase, config.webrtcMaxPeers, config.webrtcPreferTcp,
                         publicIp, config.webrtcIceServers);
  }

  // ----- What the rule means -----

  lemma {:induction false} FirstUsableIsFirst(addresses: seq<string>)
    ensures FirstUsable(addresses).None? <==> forall i :: 0 <= i < |addresses| ==> !Usable(addresses[i])
    ensures FirstUsable(addresses).Some? ==>
              exists i :: 0 <= i < |addresses| && addresses[i] == FirstUsable(addresses).value && Usable(addresses[i]) &&
                forall j :: 0 <= j < i ==> !Usable(addresses[j])
  {
    if addresses != [] {
      FirstUsableIsFirst(addresses[1..]);
      if Usable(addresses[0]) {
        assert addresses[0] == FirstUsable(addresses).value;
      } else {
        assert forall i :: 1 <= i < |addresses| ==> addresses[i] == addresses[1..][i - 1];
        if FirstUsable(addresses).Some? {
          var i :| 0 <= i < |addresses[1..]| && addresses[1..][i] == FirstUsable(addresses[1..]).value &&
            Usable(addresses[1..][i]) && forall j :: 0 <= j < i ==> !Usable(addresses[1..][j]);
          assert addresses[i + 1] == FirstUsable(addresses).value;
        }
      }
    }
  }

  /**
    WebRTC is enabled exactly when the configuration enables it and some candidate is usable; it is then
    given the first usable candidate, which is never in the 0 or 127 blocks.
   */
  lemma EnabledIffSomeCandidateUsable(config: AppConfig, network: NetworkAnswers)
    ensures WebrtcOptionsFor(config, network).enabled <==>
            config.webrtcEnabled && exists address <- Candidates(config, network) :: Usable(address)
    ensures WebrtcOptionsFor(config, network).enabled ==>
            var publicIp := WebrtcOptionsFor(config, network).publicIp;
            && Usable(publicIp)
            && exists i :: 0 <= i < |Candidates(config, network)| && Candidates(config, network)[i] == publicIp &&
                 forall j :: 0 <= j < i ==> !Usable(Candidates(config, network)[j])
  {
    FirstUsableIsFirst(Candidates(config, network));
  }

  lemma AllZeroParses()
    ensures ParseQuad("0.0.0.0") == Some([0, 0, 0, 0])
  {
    assert "0"[..0] == "";
    JoinedParses(Quad("0", "0", "0", "0"));
    assert Joined(Quad("0", "0", "0", "0")) == "0.0.0.0";
  }

  lemma UsableIsExplicit(address: string)
    requires Usable(address)
    ensures !IsAuto(address)
  {
    AllZeroParses();
    var quad := AcceptedIsJoined(address);
    assert address[0] == quad.a[0];
    assert Lower(address)[0] == address[0];
  }

  /** Writing the resolved address into the configuration settles it, whatever the network then answers. */
  lemma PinningKeepsOptions(config: AppConfig, network: NetworkAnswers, later: NetworkAnswers)
    requires WebrtcOptionsFor(config, network).enabled
    ensures WebrtcOptionsFor(config.(webrtcPublicIp := WebrtcOptionsFor(config, network).publicIp), later) ==
            WebrtcOptionsFor(config, network)
  {
    var publicIp := WebrtcOptionsFor(config, network).publicIp;
    EnabledIffSomeCandidateUsable(config, network);
    UsableIsExplicit(publicIp);
    NoInterface(publicIp);
  }

  // ----- The rule on texts, without its own terms -----

  /** A text of four dot-joined groups whose first is worth neither 0 nor 127. */
  ghost predicate Advertisable(text: string) {
    exists quad: Quad :: Grouped(quad) && Joined(quad) == text && Decimal(quad.a) != 0 && Decimal(quad.a) != 127
  }

  lemma UsableIffAdvertisable(address: string)
    ensures Usable(address) <==> Advertisable(address)
  {
    ParseQuadIffDotted(address);
    if Usable(address) {
      var quad := AcceptedIsJoined(address);
      assert ParseQuad(address) == Some(Values(quad));
    }
  }

  /** Of the addresses as they are usually written, just those of two blocks are turned down. */
  lemma PrintedUsable(a: nat, b: nat, c: nat, d: nat)
    requires a <= 255 && b <= 255 && c <= 255 && d <= 255
    ensures Usable(PrintQuad(a, b, c, d)) <==> a != 0 && a != 127
  {
    PrintParse(a, b, c, d);
  }

  /** The word in any mixture of capitals and small letters. */
  predicate SpellsAuto(text: string) {
    |text| == 4 && text[0] in "aA" && text[1] in "uU" && text[2] in "tT" && text[3] in "oO"
  }

  lemma LowersTo(c: char, small: char, capital: char)
    requires 'a' <= small <= 'z' && capital as int == small as int - 32
    ensures LowerChar(c) == small <==> c == small || c == capital
  {
  }

  lemma AutoIffSpelled(text: string)
    ensures IsAuto(text) <==> text == "" || text == "0.0.0.0" || SpellsAuto(text)
  {
    if |text| == 4 {
      LowersTo(text[0], 'a', 'A');
      LowersTo(text[1], 'u', 'U');
      LowersTo(text[2], 't', 'T');
      LowersTo(text[3], 'o', 'O');
      assert Lower(text)[0] == LowerChar(text[0]) && Lower(text)[1] == LowerChar(text[1]);
      assert Lower(text)[2] == LowerChar(text[2]) && Lower(text)[3] == LowerChar(text[3]);
      if SpellsAuto(text) {
        assert Lower(text) == "auto";
      }
    }
  }

  /** The request to find an address: nothing, the wildcard, or the word. */
  predicate AsksForOne(publicIp: string) {
    publicIp == "" || publicIp == "0.0.0.0" || SpellsAuto(publicIp)
  }

  /**
    What becomes of the section's `wanted` and `publicIp`, given the interface, the host to advertise and what the
    interfaces report: an address given stands or falls alone; else it is the interface's, else the host.
   */
  ghost predicate Decided(wanted: bool, publicIp: string, ifname: string, host: string, network: NetworkAnswers,
                          enabled: bool, address: string)
  {
    if !wanted then !enabled && address == publicIp
    else if !AsksForOne(publicIp) then enabled == Advertisable(publicIp) && address == if enabled then publicIp else ""
    else if network.Some? && ifname in network.value && Advertisable(network.value[ifname]) then
      enabled && address == network.value[ifname]
    else enabled == Advertisable(host) && address == if enabled then host else ""
  }

  /** The options carry what the rule decides. */
  lemma OptionsAreDecided(config: AppConfig, network: NetworkAnswers)
    ensures var options := WebrtcOptionsFor(config, network);
            Decided(config.webrtcEnabled, config.webrtcPublicIp, config.networkIfname, config.advertiseHost, network,
                    options.enabled, options.publicIp)
  {
    AutoIffSpelled(config.webrtcPublicIp);
    UsableIffAdvertisable(config.webrtcPublicIp);
    UsableIffAdvertisable(config.advertiseHost);
    NoInterface(config.webrtcPublicIp);
    NoInterface(config.advertiseHost);
    assert [] + [config.advertiseHost] == [config.advertiseHost];
    if network.Some? {
      var address := InterfaceAddress(network.value, config.networkIfname);
      UsableIffAdvertisable(address);
      InterfaceThenHost(address, config.advertiseHost);
      if address == "" && Usable(address) {
        UsableNotEmpty(address);
      }
    }
  }
}
