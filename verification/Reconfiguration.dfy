/**
  Live reconfiguration as a state machine.  Three things must stay in step: the stored sections, the
  protocol subsystem's copy of the configuration, and the options each running service last accepted.
  ProtocolSubsystem.dfy proves that the code takes these steps; here are the theorems about all runs.

  The configuration service has a new section value verified, then applied, and stores it when both said
  `Ok`; a value that is stored already is answered with `Ok` and goes no further.  A service that refuses
  new options keeps its old ones.
 */
module Reconfiguration {
  import opened Wrappers
  import opened JsonValues
  import opened AppConfiguration
  import opened ConfigLoader
  import opened ConfigChange
  import opened ProtocolOptions

  /** `app` is the subsystem's configuration; a missing service has no options. */
  datatype Live = Live(
    store: Store, app: AppConfig, network: NetworkAnswers,
    rtsp: Option<RtspOptions>, webrtc: Option<WebrtcOptions>, onvif: Option<OnvifOptions>,
    http: Option<HttpOptions>)

  // ----- One update -----

  function NextConfig(live: Live, scope: Section, value: Json): Option<AppConfig> {
    Load(NextRoot(live.store, scope, value))
  }

  ghost function VerifyOutcome(live: Live, scope: Section, value: Json): ConfigCode {
    var next := NextConfig(live, scope, value);
    if next.Some? && GuardAccepts(live.app, next.value, scope) then Ok else Verify
  }

  /** The change detector of a scope. */
  predicate Changed(scope: Section, current: AppConfig, next: AppConfig) {
    match scope
    case Rtsp => RtspChanged(current, next)
    case Webrtc => WebrtcChanged(current, next)
    case Onvif => OnvifChanged(current, next)
    case _ => false
  }

  predicate Present(live: Live, scope: Section) {
    match scope
    case Rtsp => live.rtsp.Some?
    case Webrtc => live.webrtc.Some?
    case Onvif => live.onvif.Some?
    case _ => false
  }

  /** The service of `scope` has taken the options built from `next`. */
  function Pushed(live: Live, scope: Section, next: AppConfig): Live {
    match scope
    case Rtsp => live.(rtsp := Some(BuildRtspOptions(next)))
    case Webrtc => live.(webrtc := Some(WebrtcOptionsFor(next, live.network)))
    case Onvif => live.(onvif := Some(BuildOnvifOptions(next)))
    case _ => live
  }

  /** Applying `next`, if there is one; `accept` is the service's answer, should it be asked. */
  ghost function Decide(live: Live, scope: Section, next: Option<AppConfig>, accept: bool): (ConfigCode, Live) {
    if next.None? then (Apply, live)
    else if !GuardAccepts(live.app, next.value, scope) then (Verify, live)
    else if !Changed(scope, live.app, next.value) then (Ok, live.(app := next.value))
    else if Present(live, scope) && accept then (Ok, Pushed(live, scope, next.value).(app := next.value))
    else (Apply, live)
  }

  ghost function ApplyOutcome(live: Live, scope: Section, value: Json, accept: bool): (ConfigCode, Live) {
    Decide(live, scope, NextConfig(live, scope, value), accept)
  }

  function Commit(live: Live, section: Section, value: Json): Live {
    live.(store := live.store[section := value])
  }

  /** The configuration service passes a value on only if it has the section and the value is a new one. */
  predicate Forwarded(live: Live, section: Section, value: Json) {
    section in live.store && live.store[section] != value
  }

  ghost predicate Accepted(live: Live, scope: Section, value: Json, accept: bool) {
    && Forwarded(live, scope, value)
    && VerifyOutcome(live, scope, value) == Ok && ApplyOutcome(live, scope, value, accept).0 == Ok
  }

  ghost function UpdateStep(live: Live, scope: Section, value: Json, accept: bool): Live {
    if Accepted(live, scope, value, accept)
    then Commit(ApplyOutcome(live, scope, value, accept).1, scope, value)
    else live
  }

  /** The answer to the request; `saves` says whether the file can be written. */
  ghost function SetCode(live: Live, section: Section, value: Json, accept: bool, saves: bool): ConfigCode {
    if section !in live.store then Missing
    else if live.store[section] == value then Ok
    else if ProtocolScope(section) && VerifyOutcome(live, section, value) != Ok then Verify
    else if ProtocolScope(section) && ApplyOutcome(live, section, value, accept).0 != Ok
    then ApplyOutcome(live, section, value, accept).0
    else if saves then Ok
    else Save
  }

  lemma DecidedUpdate(live: Live, scope: Section, value: Json, next: AppConfig, accept: bool, after: Live)
    requires Forwarded(live, scope, value) && NextConfig(live, scope, value) == Some(next)
    requires GuardAccepts(live.app, next, scope) && Decide(live, scope, Some(next), accept) == (Ok, after)
    ensures Accepted(live, scope, value, accept)
    ensures UpdateStep(live, scope, value, accept) == Commit(after, scope, value)
  {
  }

  lemma UpdateByDecide(live: Live, scope: Section, value: Json, accept: bool)
    ensures UpdateStep(live, scope, value, accept) ==
            var next := NextConfig(live, scope, value);
            if Forwarded(live, scope, value) && Decide(live, scope, next, accept).0 == Ok
            then Commit(Decide(live, scope, next, accept).1, scope, value)
            else live
  {
  }

  lemma AcceptedDecides(live: Live, scope: Section, value: Json, accept: bool) returns (next: AppConfig)
    requires Accepted(live, scope, value, accept)
    ensures NextConfig(live, scope, value) == Some(next) && GuardAccepts(live.app, next, scope)
    ensures Decide(live, scope, Some(next), accept).0 == Ok
    ensures UpdateStep(live, scope, value, accept) == Commit(Decide(live, scope, Some(next), accept).1, scope, value)
  {
    next := NextConfig(live, scope, value).value;
  }

  // ----- Runs -----

  datatype Event =
    | Update(scope: Section, value: Json, accept: bool)
    | Write(section: Section, contents: Json)
    | Readdress(answers: NetworkAnswers)

  ghost function Step(live: Live, event: Event): Live {
    match event
    case Update(scope, value, accept) => UpdateStep(live, scope, value, accept)
    case Write(section, contents) => if section in live.store then Commit(live, section, contents) else live
    case Readdress(answers) => live.(network := answers)
  }

  ghost function Run(live: Live, events: seq<Event>): Live {
    if events == [] then live else Step(Run(live, events[..|events| - 1]), events[|events| - 1])
  }

  /** Runs in which only protocol sections change. */
  ghost predicate OnlyUpdates(events: seq<Event>) {
    forall i :: 0 <= i < |events| ==> events[i].Update?
  }

  /** Runs with arbitrary other writes and address changes; protocol sections change by update only. */
  ghost predicate Legal(events: seq<Event>) {
    forall i :: 0 <= i < |events| ==> events[i].Write? ==> !ProtocolScope(events[i].section)
  }

  // ----- Agreement -----

  ghost predicate InSync(live: Live) {
    Load(StoredRoot(live.store)) == Some(live.app)
  }

  predicate RtspAgrees(live: Live) {
    live.rtsp.Some? ==> live.rtsp.value == BuildRtspOptions(live.app)
  }

  predicate WebrtcAgrees(live: Live) {
    live.webrtc.Some? ==> live.webrtc.value == WebrtcOptionsFor(live.app, live.network)
  }

  predicate OnvifAgrees(live: Live) {
    live.onvif.Some? ==> live.onvif.value == BuildOnvifOptions(live.app)
  }

  predicate HttpAgrees(live: Live) {
    live.http.Some? ==> live.http.value == BuildHttpOptions(live.app)
  }

  ghost predicate Agreement(live: Live) {
    InSync(live) && RtspAgrees(live) && WebrtcAgrees(live) && OnvifAgrees(live) && HttpAgrees(live)
  }

  /** The protocol sections of the store still say what the configuration says. */
  ghost predicate Anchored(live: Live) {
    && live.app.listenIp == DEFAULT_CONFIG.listenIp
    && forall scope | ProtocolScope(scope) ::
         ParseSection(scope, Get(live.store, scope)) == Some(ViewOf(scope, live.app))
  }

  lemma CommittedRoot(store: Store, scope: Section, value: Json)
    requires Known(scope)
    ensures StoredRoot(store[scope := value]) == NextRoot(store, scope, value)
  {
  }

  lemma RewritingStores(store: Store, scope: Section)
    ensures NextRoot(store, scope, Get(store, scope)) == StoredRoot(store)
  {
  }

  lemma NextRootAt(store: Store, scope: Section, value: Json, section: Section)
    requires Known(section)
    ensures section in NextRoot(store, scope, value).members
    ensures NextRoot(store, scope, value).members[section] == Pick(store, scope, value, section)
  {
  }

  /** What a next configuration has in common with the store it is built from. */
  lemma NextReads(store: Store, scope: Section, value: Json, next: AppConfig)
    requires Load(NextRoot(store, scope, value)) == Some(next)
    ensures next.listenIp == DEFAULT_CONFIG.listenIp
    ensures forall section | Known(section) ::
              ParseSection(section, Pick(store, scope, value, section)) == Some(ViewOf(section, next))
  {
    var root := NextRoot(store, scope, value);
    LoadDescribes(root, next);
    forall section | Known(section)
      ensures ParseSection(section, Pick(store, scope, value, section)) == Some(ViewOf(section, next))
    {
      NextRootAt(store, scope, value, section);
      assert ParseSection(section, root.members[section]) == Some(ViewOf(section, next));
    }
  }

  lemma StoredReads(store: Store, config: AppConfig)
    requires Load(StoredRoot(store)) == Some(config)
    ensures config.listenIp == DEFAULT_CONFIG.listenIp
    ensures forall section | Known(section) :: ParseSection(section, Get(store, section)) == Some(ViewOf(section, config))
  {
    RewritingStores(store, Snapshot);
    var value := Get(store, Snapshot);
    NextReads(store, Snapshot, value, config);
    forall section | Known(section)
      ensures ParseSection(section, Get(store, section)) == Some(ViewOf(section, config))
    {
      assert Pick(store, Snapshot, value, section) == Get(store, section);
    }
  }

  lemma SyncAnchors(live: Live)
    requires InSync(live)
    ensures Anchored(live)
  {
    StoredReads(live.store, live.app);
  }

  /** From an anchored state, an update leaves alone what the other protocol sections feed. */
  lemma OtherViewsKept(live: Live, scope: Section, value: Json, next: AppConfig)
    requires Anchored(live) && NextConfig(live, scope, value) == Some(next)
    ensures next.listenIp == live.app.listenIp
    ensures forall other | ProtocolScope(other) && other != scope :: ViewOf(other, next) == ViewOf(other, live.app)
  {
    NextReads(live.store, scope, value, next);
    forall other | ProtocolScope(other) && other != scope
      ensures ViewOf(other, next) == ViewOf(other, live.app)
    {
      assert Known(other) && Pick(live.store, scope, value, other) == Get(live.store, other);
    }
  }

  /** From a synchronised state, also what the sections outside the protocol scopes feed. */
  lemma AllOtherViewsKept(live: Live, scope: Section, value: Json, next: AppConfig)
    requires InSync(live) && NextConfig(live, scope, value) == Some(next)
    ensures next.listenIp == live.app.listenIp
    ensures forall other | Known(other) && other != scope :: ViewOf(other, next) == ViewOf(other, live.app)
  {
    NextReads(live.store, scope, value, next);
    StoredReads(live.store, live.app);
    forall other | Known(other) && other != scope
      ensures ViewOf(other, next) == ViewOf(other, live.app)
    {
      assert Pick(live.store, scope, value, other) == Get(live.store, other);
    }
  }

  // ----- The detectors miss nothing -----

  lemma GuardKeeps(current: AppConfig, next: AppConfig, scope: Section, field: RestartField)
    requires GuardAccepts(current, next, scope) && HomeOf(field) == scope
    ensures ValueIn(field, next) == ValueIn(field, current)
  {
  }

  lemma GuardedFields(current: AppConfig, next: AppConfig, scope: Section)
    requires GuardAccepts(current, next, scope)
    ensures scope == Http ==> next.httpPort == current.httpPort && next.staticRoot == current.staticRoot
    ensures scope == Rtsp ==> next.rtspPort == current.rtspPort && next.rtspMaxSessions == current.rtspMaxSessions
    ensures scope == Webrtc ==> next.webrtcLocalPortBase == current.webrtcLocalPortBase
    ensures scope == Onvif ==>
              && next.onvifDevicePort == current.onvifDevicePort
              && next.onvifDiscoveryPort == current.onvifDiscoveryPort
              && next.onvifDiscoveryEnabled == current.onvifDiscoveryEnabled
  {
    match scope
    case Http =>
      GuardKeeps(current, next, scope, HttpPort);
      GuardKeeps(current, next, scope, HttpStaticRoot);
    case Rtsp =>
      GuardKeeps(current, next, scope, RtspPort);
      GuardKeeps(current, next, scope, RtspMaxSessions);
    case Webrtc =>
      GuardKeeps(current, next, scope, WebrtcLocalPortBase);
    case Onvif =>
      GuardKeeps(current, next, scope, OnvifDevicePort);
      GuardKeeps(current, next, scope, OnvifDiscoveryPort);
      GuardKeeps(current, next, scope, OnvifDiscoveryEnabled);
    case _ =>
  }

  /**
    A change that passes the guard of its scope and is not detected would not change the options of that
    scope's own service, whatever happened to other sections.
   */
  lemma OwnServiceUntouched(current: AppConfig, next: AppConfig, scope: Section, network: NetworkAnswers)
    requires GuardAccepts(current, next, scope) && !Changed(scope, current, next)
    requires next.listenIp == current.listenIp
    ensures scope == Rtsp ==> BuildRtspOptions(next) == BuildRtspOptions(current)
    ensures scope == Webrtc ==> WebrtcOptionsFor(next, network) == WebrtcOptionsFor(current, network)
    ensures scope == Onvif ==> BuildOnvifOptions(next) == BuildOnvifOptions(current)
    ensures scope == Http ==> BuildHttpOptions(next) == BuildHttpOptions(current)
  {
    GuardedFields(current, next, scope);
    if scope == Webrtc {
      assert Candidates(next, network) == Candidates(current, network);
    }
  }

  /** If it leaves other sections alone as well, it would not change the options of any service. */
  lemma UndetectedIsHarmless(current: AppConfig, next: AppConfig, scope: Section, network: NetworkAnswers)
    requires GuardAccepts(current, next, scope) && !Changed(scope, current, next)
    requires next.listenIp == current.listenIp
    requires forall other | Known(other) && other != scope :: ViewOf(other, next) == ViewOf(other, current)
    ensures BuildRtspOptions(next) == BuildRtspOptions(current)
    ensures WebrtcOptionsFor(next, network) == WebrtcOptionsFor(current, network)
    ensures BuildOnvifOptions(next) == BuildOnvifOptions(current)
    ensures BuildHttpOptions(next) == BuildHttpOptions(current)
  {
    OwnServiceUntouched(current, next, scope, network);
    OtherServicesUntouched(current, next, scope, network);
  }

  /** The view equalities, section by section. */
  lemma KeptViews(current: AppConfig, next: AppConfig, scope: Section)
    requires forall other | Known(other) && other != scope :: ViewOf(other, next) == ViewOf(other, current)
    ensures scope != Video ==> ViewOf(Video, next) == ViewOf(Video, current)
    ensures scope != Network ==> ViewOf(Network, next) == ViewOf(Network, current)
    ensures scope != Http ==> ViewOf(Http, next) == ViewOf(Http, current)
    ensures scope != Rtsp ==> ViewOf(Rtsp, next) == ViewOf(Rtsp, current)
    ensures scope != Webrtc ==> ViewOf(Webrtc, next) == ViewOf(Webrtc, current)
    ensures scope != Onvif ==> ViewOf(Onvif, next) == ViewOf(Onvif, current)
  {
  }

  /** A detected change of one scope leaves the options of the other services as they were. */
  lemma OtherServicesUntouched(current: AppConfig, next: AppConfig, scope: Section, network: NetworkAnswers)
    requires GuardAccepts(current, next, scope)
    requires next.listenIp == current.listenIp
    requires forall other | Known(other) && other != scope :: ViewOf(other, next) == ViewOf(other, current)
    ensures scope != Rtsp ==> BuildRtspOptions(next) == BuildRtspOptions(current)
    ensures scope != Webrtc ==> WebrtcOptionsFor(next, network) == WebrtcOptionsFor(current, network)
    ensures scope != Onvif ==> BuildOnvifOptions(next) == BuildOnvifOptions(current)
    ensures BuildHttpOptions(next) == BuildHttpOptions(current)
  {
    GuardedFields(current, next, scope);
    KeptViews(current, next, scope);
    if scope != Webrtc {
      assert Candidates(next, network) == Candidates(current, network);
    }
  }

  // ----- Theorem: agreement in every run of updates -----

  lemma UpdateKeepsAgreement(live: Live, scope: Section, value: Json, accept: bool)
    requires Agreement(live)
    ensures Agreement(UpdateStep(live, scope, value, accept))
  {
    if Accepted(live, scope, value, accept) {
      var next := NextConfig(live, scope, value).value;
      AllOtherViewsKept(live, scope, value, next);
      CommittedRoot(live.store, scope, value);
      OtherServicesUntouched(live.app, next, scope, live.network);
      if !Changed(scope, live.app, next) {
        UndetectedIsHarmless(live.app, next, scope, live.network);
      }
    }
  }

  lemma {:induction false} RunsKeepAgreement(live: Live, events: seq<Event>)
    requires Agreement(live) && OnlyUpdates(events)
    ensures Agreement(Run(live, events))
  {
    if events != [] {
      var before := events[..|events| - 1];
      RunsKeepAgreement(live, before);
      var last := events[|events| - 1];
      UpdateKeepsAgreement(Run(live, before), last.scope, last.value, last.accept);
    }
  }

  // ----- Theorem: live reconfiguration is a restart -----

  /** Which optional services came up. */
  datatype Started = Started(rtsp: bool, webrtc: bool, onvif: bool)

  /** Every service that came up has the options built from `app`. */
  function Fresh(store: Store, app: AppConfig, network: NetworkAnswers, up: Started): Live {
    Live(store, app, network,
         if up.rtsp then Some(BuildRtspOptions(app)) else None,
         if up.webrtc then Some(WebrtcOptionsFor(app, network)) else None,
         if up.onvif then Some(BuildOnvifOptions(app)) else None,
         Some(BuildHttpOptions(app)))
  }

  /** The configuration a start works with; an empty override of the static root is none. */
  function StartConfig(store: Store, override: string): Option<AppConfig> {
    match Load(StoredRoot(store))
    case None => None
    case Some(loaded) => Some(if override == "" then loaded else loaded.(staticRoot := override))
  }

  /** The state right after start. */
  function Boot(store: Store, override: string, network: NetworkAnswers, up: Started): Option<Live> {
    match StartConfig(store, override)
    case None => None
    case Some(app) => Some(Fresh(store, app, network, up))
  }

  ghost predicate SameServices(left: Live, right: Live) {
    && left.rtsp.Some? == right.rtsp.Some?
    && left.webrtc.Some? == right.webrtc.Some?
    && left.onvif.Some? == right.onvif.Some?
    && left.http.Some? == right.http.Some?
  }

  lemma DecideKeepsServices(live: Live, scope: Section, next: Option<AppConfig>, accept: bool)
    ensures SameServices(Decide(live, scope, next, accept).1, live)
    ensures Decide(live, scope, next, accept).1.network == live.network
    ensures Decide(live, scope, next, accept).1.store == live.store
  {
  }

  lemma DecideAdopts(live: Live, scope: Section, next: AppConfig, accept: bool)
    ensures Decide(live, scope, Some(next), accept).0 == Ok ==> Decide(live, scope, Some(next), accept).1.app == next
    ensures Decide(live, scope, Some(next), accept).1.http == live.http
  {
  }

  lemma StepKeepsServices(live: Live, event: Event)
    ensures SameServices(Step(live, event), live)
    ensures event.Update? ==> Step(live, event).network == live.network
  {
    if event.Update? {
      DecideKeepsServices(live, event.scope, NextConfig(live, event.scope, event.value), event.accept);
    }
  }

  lemma {:induction false} RunKeepsServices(live: Live, events: seq<Event>)
    ensures SameServices(Run(live, events), live)
    ensures OnlyUpdates(events) ==> Run(live, events).network == live.network
  {
    if events != [] {
      RunKeepsServices(live, events[..|events| - 1]);
      StepKeepsServices(Run(live, events[..|events| - 1]), events[|events| - 1]);
    }
  }

  lemma RtspGuard(current: AppConfig, next: AppConfig)
    requires next.rtspPort == current.rtspPort && next.rtspMaxSessions == current.rtspMaxSessions
    ensures GuardAccepts(current, next, Rtsp)
  {
  }

  // ----- Theorem: restart-only fields -----

  /** The static root that the stored HTTP section names. */
  function StoredStaticRoot(store: Store): string {
    var http := ParseHttp(Get(store, Http));
    if http.Some? then http.value.staticRoot else ""
  }

  /** The state with the static root of the store; it differs after a start with an override of its own. */
  function Rerooted(live: Live): Live {
    live.(app := live.app.(staticRoot := StoredStaticRoot(live.store)))
  }

  /** The protocol sections of the store say what the configuration says, but for the static root. */
  ghost predicate NearlyAnchored(live: Live) {
    Anchored(Rerooted(live))
  }

  lemma AnchoredRoot(live: Live)
    requires Anchored(live)
    ensures Rerooted(live) == live && NearlyAnchored(live)
  {
    assert ParseSection(Http, Get(live.store, Http)) == Some(ViewOf(Http, live.app));
  }

  lemma RerootedField(field: RestartField, live: Live)
    requires field != HttpStaticRoot
    ensures ValueIn(field, Rerooted(live).app) == ValueIn(field, live.app)
  {
  }

  lemma FieldFromView(field: RestartField, current: AppConfig, next: AppConfig)
    requires ViewOf(HomeOf(field), next) == ViewOf(HomeOf(field), current)
    ensures ValueIn(field, next) == ValueIn(field, current)
  {
  }

  lemma GuardAndViewsKeepField(live: Live, next: AppConfig, scope: Section, field: RestartField)
    requires GuardAccepts(live.app, next, scope) && field != HttpStaticRoot
    requires forall other | ProtocolScope(other) && other != scope ::
               ViewOf(other, next) == ViewOf(other, Rerooted(live).app)
    ensures ValueIn(field, next) == ValueIn(field, live.app)
  {
    if HomeOf(field) == scope {
      GuardKeeps(live.app, next, scope, field);
    } else {
      assert ProtocolScope(HomeOf(field));
      FieldFromView(field, Rerooted(live).app, next);
      RerootedField(field, live);
    }
  }

  lemma UpdateKeepsAnchor(live: Live, scope: Section, value: Json, next: AppConfig)
    requires Anchored(live) && NextConfig(live, scope, value) == Some(next) && ProtocolScope(scope)
    ensures next.listenIp == DEFAULT_CONFIG.listenIp
    ensures forall other | ProtocolScope(other) ::
              ParseSection(other, Get(live.store[scope := value], other)) == Some(ViewOf(other, next))
  {
    NextReads(live.store, scope, value, next);
    forall other | ProtocolScope(other)
      ensures ParseSection(other, Get(live.store[scope := value], other)) == Some(ViewOf(other, next))
    {
      CommittedGet(live.store, scope, value, other);
      assert Known(other);
    }
  }

  lemma CommittedGet(store: Store, scope: Section, value: Json, section: Section)
    ensures Get(store[scope := value], section) == Pick(store, scope, value, section)
  {
  }

  /** The static root that an accepted update leaves in the configuration: only `http` holds on to the present one. */
  function RootAfter(live: Live, scope: Section): string {
    if scope == Http then live.app.staticRoot else StoredStaticRoot(live.store)
  }

  lemma AcceptedRoot(live: Live, scope: Section, next: AppConfig)
    requires GuardAccepts(live.app, next, scope)
    requires forall other | ProtocolScope(other) && other != scope ::
               ViewOf(other, next) == ViewOf(other, Rerooted(live).app)
    ensures next.staticRoot == RootAfter(live, scope)
  {
    if scope == Http {
      GuardKeeps(live.app, next, scope, HttpStaticRoot);
    } else {
      FieldFromView(HttpStaticRoot, Rerooted(live).app, next);
    }
  }

  /** An accepted update ties the configuration to the store again, and keeps the restart-only fields but that one. */
  lemma AcceptedAnchors(live: Live, scope: Section, value: Json, accept: bool)
    requires NearlyAnchored(live) && Accepted(live, scope, value, accept)
    ensures var after := UpdateStep(live, scope, value, accept);
            && Anchored(after) && after.app.staticRoot == RootAfter(live, scope)
            && forall field: RestartField | field != HttpStaticRoot :: ValueIn(field, after.app) == ValueIn(field, live.app)
  {
    var next := AcceptedDecides(live, scope, value, accept);
    OtherViewsKept(Rerooted(live), scope, value, next);
    UpdateKeepsAnchor(Rerooted(live), scope, value, next);
    DecideAdopts(live, scope, next, accept);
    DecideKeepsServices(live, scope, Some(next), accept);
    AcceptedRoot(live, scope, next);
    forall field: RestartField | field != HttpStaticRoot
      ensures ValueIn(field, next) == ValueIn(field, live.app)
    {
      GuardAndViewsKeepField(live, next, scope, field);
    }
  }

  /** Whatever is not an accepted update leaves the configuration and the protocol sections alone. */
  lemma OthersKeepAnchor(live: Live, event: Event)
    requires event.Write? ==> !ProtocolScope(event.section)
    requires event.Update? ==> !Accepted(live, event.scope, event.value, event.accept)
    ensures Step(live, event).app == live.app
    ensures forall scope | ProtocolScope(scope) :: Get(Step(live, event).store, scope) == Get(live.store, scope)
    ensures StoredStaticRoot(Step(live, event).store) == StoredStaticRoot(live.store)
    ensures NearlyAnchored(live) ==> NearlyAnchored(Step(live, event))
    ensures Anchored(live) ==> Anchored(Step(live, event))
  {
    assert Get(Step(live, event).store, Http) == Get(live.store, Http);
  }

  /** The scope of the first update of a run that is accepted. */
  ghost function FirstAccepted(live: Live, events: seq<Event>): Option<Section> {
    if events == [] then None
    else
      var before := events[..|events| - 1];
      var last := events[|events| - 1];
      var earlier := FirstAccepted(live, before);
      if earlier.Some? then earlier
      else if last.Update? && Accepted(Run(live, before), last.scope, last.value, last.accept) then Some(last.scope)
      else None
  }

  /** The static root of the configuration after a run: the first accepted update decides. */
  ghost function RootAfterRun(live: Live, events: seq<Event>): string {
    match FirstAccepted(live, events)
    case None => live.app.staticRoot
    case Some(scope) => RootAfter(live, scope)
  }

  /** One step; `tied` says that an update has been accepted before, and `root` is the static root so far. */
  lemma StepKeepsFields(live: Live, event: Event, root: string, tied: bool)
    requires NearlyAnchored(live) && (event.Write? ==> !ProtocolScope(event.section))
    requires live.app.staticRoot == root && (tied ==> Anchored(live))
    ensures var after := Step(live, event);
            var updated := event.Update? && Accepted(live, event.scope, event.value, event.accept);
            && NearlyAnchored(after) && (tied || updated ==> Anchored(after))
            && after.app.staticRoot == (if updated && !tied then RootAfter(live, event.scope) else root)
            && (!tied && !updated ==> StoredStaticRoot(after.store) == StoredStaticRoot(live.store))
            && forall field: RestartField | field != HttpStaticRoot :: ValueIn(field, after.app) == ValueIn(field, live.app)
  {
    if tied {
      AnchoredRoot(live);
    }
    if event.Update? && Accepted(live, event.scope, event.value, event.accept) {
      AcceptedAnchors(live, event.scope, event.value, event.accept);
      AnchoredRoot(Step(live, event));
    } else {
      OthersKeepAnchor(live, event);
    }
  }

  /**
    In every run, with arbitrary writes to the other sections and any override, no restart-only field changes
    but the static root, and that at most once: at the first accepted update, unless it is one of `http`.
   */
  lemma {:induction false} RestartFieldsStay(live: Live, events: seq<Event>)
    requires NearlyAnchored(live) && Legal(events)
    ensures var after := Run(live, events);
            && NearlyAnchored(after) && (FirstAccepted(live, events).Some? ==> Anchored(after))
            && after.app.staticRoot == RootAfterRun(live, events)
            && (FirstAccepted(live, events).None? ==> StoredStaticRoot(after.store) == StoredStaticRoot(live.store))
            && forall field: RestartField | field != HttpStaticRoot :: ValueIn(field, after.app) == ValueIn(field, live.app)
  {
    if events != [] {
      var before := events[..|events| - 1];
      RestartFieldsStay(live, before);
      StepKeepsFields(Run(live, before), events[|events| - 1], RootAfterRun(live, before),
                      FirstAccepted(live, before).Some?);
    }
  }

  // ----- Theorem: what other writes can leave behind -----

  /** Only the codecs, fed by the video section, may lag. */
  predicate RtspNearlyAgrees(live: Live) {
    live.rtsp.Some? ==>
      var built := BuildRtspOptions(live.app);
      live.rtsp.value.(mainVideoCodec := built.mainVideoCodec, subVideoCodec := built.subVideoCodec) == built
  }

  /** Only the advertised address, fed by the network section, may lag. */
  predicate OnvifNearlyAgrees(live: Live) {
    live.onvif.Some? ==>
      var built := BuildOnvifOptions(live.app);
      live.onvif.value.(advertiseIp := built.advertiseIp) == built
  }

  /**
    Only the public address may lag, and `enabled` with it: WebRTC is enabled exactly when the configuration
    says so and there is an address, and never with an unusable one.
   */
  predicate WebrtcNearlyAgrees(live: Live) {
    live.webrtc.Some? ==>
      var built := WebrtcOptionsFor(live.app, live.network);
      var taken := live.webrtc.value;
      && taken.(publicIp := built.publicIp, enabled := built.enabled) == built
      && (taken.enabled <==> live.app.webrtcEnabled && taken.publicIp != "")
      && (taken.enabled ==> Usable(taken.publicIp))
  }

  /** Only the static root may lag. */
  predicate HttpNearlyAgrees(live: Live) {
    live.http.Some? ==>
      var built := BuildHttpOptions(live.app);
      live.http.value.(staticRoot := built.staticRoot) == built
  }

  ghost predicate NearAgreement(live: Live) {
    && NearlyAnchored(live)
    && RtspNearlyAgrees(live) && WebrtcNearlyAgrees(live) && OnvifNearlyAgrees(live) && HttpNearlyAgrees(live)
  }

  lemma ProtocolViews(current: AppConfig, next: AppConfig, scope: Section)
    requires forall other | ProtocolScope(other) && other != scope :: ViewOf(other, next) == ViewOf(other, current)
    ensures scope != Http ==> ViewOf(Http, next) == ViewOf(Http, current)
    ensures scope != Rtsp ==> ViewOf(Rtsp, next) == ViewOf(Rtsp, current)
    ensures scope != Webrtc ==> ViewOf(Webrtc, next) == ViewOf(Webrtc, current)
    ensures scope != Onvif ==> ViewOf(Onvif, next) == ViewOf(Onvif, current)
  {
  }

  /** Freshly built options are as near as can be. */
  lemma BuiltIsNear(live: Live)
    requires WebrtcAgrees(live)
    ensures WebrtcNearlyAgrees(live)
  {
    EnabledIffSomeCandidateUsable(live.app, live.network);
    FirstUsableIsFirst(Candidates(live.app, live.network));
    if live.app.webrtcEnabled {
      ResolvedTellsEnabled(live.app, live.network);
    }
  }

  lemma UpdateKeepsNearWebrtc(live: Live, scope: Section, next: AppConfig, accept: bool)
    requires WebrtcNearlyAgrees(live) && GuardAccepts(live.app, next, scope)
    requires scope != Webrtc ==> ViewOf(Webrtc, next) == ViewOf(Webrtc, live.app)
    requires Decide(live, scope, Some(next), accept).0 == Ok
    ensures WebrtcNearlyAgrees(Decide(live, scope, Some(next), accept).1)
  {
    var after := Decide(live, scope, Some(next), accept).1;
    if scope == Webrtc {
      GuardedFields(live.app, next, scope);
      if Changed(scope, live.app, next) {
        BuiltIsNear(after);
      }
    }
  }

  lemma UpdateKeepsNearOthers(live: Live, scope: Section, next: AppConfig, accept: bool)
    requires RtspNearlyAgrees(live) && OnvifNearlyAgrees(live) && HttpNearlyAgrees(live)
    requires GuardAccepts(live.app, next, scope) && next.listenIp == live.app.listenIp && next.httpPort == live.app.httpPort
    requires scope != Rtsp ==> ViewOf(Rtsp, next) == ViewOf(Rtsp, live.app)
    requires scope != Onvif ==> ViewOf(Onvif, next) == ViewOf(Onvif, live.app)
    requires Decide(live, scope, Some(next), accept).0 == Ok
    ensures var after := Decide(live, scope, Some(next), accept).1;
            RtspNearlyAgrees(after) && OnvifNearlyAgrees(after) && HttpNearlyAgrees(after)
  {
    GuardedFields(live.app, next, scope);
  }

  /** What an accepted update has in common with the configuration before it. */
  lemma AcceptedKeeps(live: Live, scope: Section, value: Json, next: AppConfig)
    requires NearlyAnchored(live) && NextConfig(live, scope, value) == Some(next) && GuardAccepts(live.app, next, scope)
    ensures next.listenIp == live.app.listenIp && next.httpPort == live.app.httpPort
    ensures scope != Rtsp ==> ViewOf(Rtsp, next) == ViewOf(Rtsp, live.app)
    ensures scope != Webrtc ==> ViewOf(Webrtc, next) == ViewOf(Webrtc, live.app)
    ensures scope != Onvif ==> ViewOf(Onvif, next) == ViewOf(Onvif, live.app)
  {
    OtherViewsKept(Rerooted(live), scope, value, next);
    ProtocolViews(Rerooted(live).app, next, scope);
    GuardedFields(live.app, next, scope);
  }

  lemma UpdateKeepsNearAgreement(live: Live, scope: Section, value: Json, accept: bool)
    requires NearAgreement(live)
    ensures NearAgreement(UpdateStep(live, scope, value, accept))
  {
    if Accepted(live, scope, value, accept) {
      var next := AcceptedDecides(live, scope, value, accept);
      AcceptedAnchors(live, scope, value, accept);
      AnchoredRoot(UpdateStep(live, scope, value, accept));
      AcceptedKeeps(live, scope, value, next);
      UpdateKeepsNearWebrtc(live, scope, next, accept);
      UpdateKeepsNearOthers(live, scope, next, accept);
    }
  }

  lemma OthersKeepNearAgreement(live: Live, event: Event)
    requires NearAgreement(live) && !event.Update? && (event.Write? ==> !ProtocolScope(event.section))
    ensures NearAgreement(Step(live, event))
  {
    OthersKeepAnchor(live, event);
  }

  lemma {:induction false} RunsKeepNearAgreement(live: Live, events: seq<Event>)
    requires NearAgreement(live) && Legal(events)
    ensures NearAgreement(Run(live, events))
  {
    if events != [] {
      var before := events[..|events| - 1];
      RunsKeepNearAgreement(live, before);
      var last := events[|events| - 1];
      if last.Update? {
        UpdateKeepsNearAgreement(Run(live, before), last.scope, last.value, last.accept);
      } else {
        OthersKeepNearAgreement(Run(live, before), last);
      }
    }
  }

  lemma AgreementIsNearAgreement(live: Live)
    requires Agreement(live)
    ensures NearAgreement(live)
  {
    SyncAnchors(live);
    AnchoredRoot(live);
    BuiltIsNear(live);
  }

  lemma {:induction false} RunKeepsHttp(live: Live, events: seq<Event>)
    ensures Run(live, events).http == live.http
  {
    if events != [] {
      var before, last := events[..|events| - 1], events[|events| - 1];
      RunKeepsHttp(live, before);
      if last.Update? && Accepted(Run(live, before), last.scope, last.value, last.accept) {
        var next := AcceptedDecides(Run(live, before), last.scope, last.value, last.accept);
        DecideAdopts(Run(live, before), last.scope, next, last.accept);
      }
    }
  }

  /**
    An HTTP service that agrees before a run agrees after it if and only if the static root is the stored one
    to begin with, no update is accepted, or the first accepted one is of `http`.
   */
  lemma HttpAgreementAfterRun(live: Live, events: seq<Event>)
    requires NearAgreement(live) && HttpAgrees(live) && live.http.Some? && Legal(events)
    ensures HttpAgrees(Run(live, events)) <==>
            live.app.staticRoot == StoredStaticRoot(live.store) ||
            FirstAccepted(live, events) == None || FirstAccepted(live, events) == Some(Http)
  {
    RunsKeepNearAgreement(live, events);
    RunKeepsHttp(live, events);
    RestartFieldsStay(live, events);
  }

  // Exactly when a service agrees after one event, whether or not it agreed before.  In its own scope a lagging
  // service recovers only if the detector of that scope fires.  Outside its own scope the whole configuration
  // is replaced under it, so it may fall behind or find itself up to date again.

  lemma RtspAgreementAfterUpdate(live: Live, scope: Section, value: Json, accept: bool)
    requires NearAgreement(live) && Accepted(live, scope, value, accept) && live.rtsp.Some?
    ensures var next := NextConfig(live, scope, value).value;
            RtspAgrees(UpdateStep(live, scope, value, accept)) <==>
            if scope == Rtsp then RtspAgrees(live) || RtspChanged(live.app, next)
            else live.rtsp.value.mainVideoCodec == next.rtspMainCodec && live.rtsp.value.subVideoCodec == next.rtspSubCodec
  {
    var next := NextConfig(live, scope, value).value;
    AcceptedKeeps(live, scope, value, next);
    GuardedFields(live.app, next, scope);
  }

  lemma OnvifAgreementDecided(live: Live, scope: Section, next: AppConfig, accept: bool)
    requires OnvifNearlyAgrees(live) && live.onvif.Some? && GuardAccepts(live.app, next, scope)
    requires next.listenIp == live.app.listenIp && next.httpPort == live.app.httpPort
    requires scope != Onvif ==> ViewOf(Onvif, next) == ViewOf(Onvif, live.app)
    requires Decide(live, scope, Some(next), accept).0 == Ok
    ensures OnvifAgrees(Decide(live, scope, Some(next), accept).1) <==>
            if scope == Onvif then OnvifAgrees(live) || OnvifChanged(live.app, next)
            else live.onvif.value.advertiseIp == next.advertiseHost
  {
    GuardedFields(live.app, next, scope);
  }

  lemma OnvifAgreementAfterUpdate(live: Live, scope: Section, value: Json, accept: bool)
    requires NearAgreement(live) && Accepted(live, scope, value, accept) && live.onvif.Some?
    ensures var next := NextConfig(live, scope, value).value;
            OnvifAgrees(UpdateStep(live, scope, value, accept)) <==>
            if scope == Onvif then OnvifAgrees(live) || OnvifChanged(live.app, next)
            else live.onvif.value.advertiseIp == next.advertiseHost
  {
    var next := AcceptedDecides(live, scope, value, accept);
    AcceptedKeeps(live, scope, value, next);
    OnvifAgreementDecided(live, scope, next, accept);
  }

  lemma ResolvedTellsEnabled(config: AppConfig, network: NetworkAnswers)
    requires config.webrtcEnabled
    ensures FirstUsable(Candidates(config, network)).Some? <==> ResolvedPublicIp(config, network) != ""
  {
    FirstUsableIsFirst(Candidates(config, network));
    if FirstUsable(Candidates(config, network)).Some? {
      UsableNotEmpty(FirstUsable(Candidates(config, network)).value);
    }
  }

  /** A nearly agreeing WebRTC service agrees if and only if its address is the one the rule resolves. */
  lemma AddressDecides(live: Live)
    requires WebrtcNearlyAgrees(live) && live.webrtc.Some?
    ensures WebrtcAgrees(live) <==> live.webrtc.value.publicIp == ResolvedPublicIp(live.app, live.network)
  {
    if live.app.webrtcEnabled {
      ResolvedTellsEnabled(live.app, live.network);
    }
  }

  lemma WebrtcAgreementInScope(live: Live, value: Json, accept: bool)
    requires NearAgreement(live) && Accepted(live, Webrtc, value, accept) && live.webrtc.Some?
    ensures WebrtcAgrees(UpdateStep(live, Webrtc, value, accept)) <==>
            WebrtcAgrees(live) || WebrtcChanged(live.app, NextConfig(live, Webrtc, value).value)
  {
    var next := NextConfig(live, Webrtc, value).value;
    GuardedFields(live.app, next, Webrtc);
    if !WebrtcChanged(live.app, next) {
      assert Candidates(next, live.network) == Candidates(live.app, live.network);
    }
  }

  lemma WebrtcAgreementOutOfScope(live: Live, scope: Section, value: Json, accept: bool)
    requires NearAgreement(live) && Accepted(live, scope, value, accept) && live.webrtc.Some? && scope != Webrtc
    ensures WebrtcAgrees(UpdateStep(live, scope, value, accept)) <==>
            live.webrtc.value.publicIp == ResolvedPublicIp(NextConfig(live, scope, value).value, live.network)
  {
    UpdateKeepsNearAgreement(live, scope, value, accept);
    AddressDecides(UpdateStep(live, scope, value, accept));
  }

  /** When an interface changes its address, only WebRTC can be concerned; nobody tells it. */
  lemma AgreementAfterReaddress(live: Live, answers: NetworkAnswers)
    requires NearAgreement(live)
    ensures var after := Step(live, Readdress(answers));
            && NearAgreement(after)
            && (RtspAgrees(after) <==> RtspAgrees(live)) && (OnvifAgrees(after) <==> OnvifAgrees(live))
            && (live.webrtc.Some? ==>
                 (WebrtcAgrees(after) <==> live.webrtc.value.publicIp == ResolvedPublicIp(live.app, answers)))
  {
    var after := Step(live, Readdress(answers));
    if live.webrtc.Some? {
      AddressDecides(after);
    }
  }

  // ----- Services can follow -----

  /**
    A verified update asks its own service for nothing that a running service cannot change: RTSP may change
    authentication and codecs, ONVIF its address, authentication, names and HTTP port, WebRTC all but its ports.
   */
  lemma ServicesCanFollow(live: Live, scope: Section, value: Json)
    requires NearAgreement(live) && VerifyOutcome(live, scope, value) == Ok
    ensures var next := NextConfig(live, scope, value).value;
            && (scope == Rtsp && live.rtsp.Some? ==>
                 var built := BuildRtspOptions(next);
                 live.rtsp.value.(enableAuth := built.enableAuth, mainVideoCodec := built.mainVideoCodec,
                                  subVideoCodec := built.subVideoCodec) == built)
            && (scope == Onvif && live.onvif.Some? ==>
                 var built := BuildOnvifOptions(next);
                 live.onvif.value.(advertiseIp := built.advertiseIp, enableAuth := built.enableAuth,
                                   manufacturer := built.manufacturer, model := built.model,
                                   httpPort := built.httpPort) == built)
            && (scope == Webrtc && live.webrtc.Some? ==>
                 live.webrtc.value.localPortBase == WebrtcOptionsFor(next, live.network).localPortBase)
  {
    var next := NextConfig(live, scope, value).value;
    AcceptedKeeps(live, scope, value, next);
    GuardedFields(live.app, next, scope);
  }

  // ----- Refusals -----

  /**
    After a successful verification, applying can fail only with `Apply`, and does so exactly when the
    detector fires and the service is missing or refuses.
   */
  lemma VerifiedFailsOnlyInApply(live: Live, scope: Section, value: Json, accept: bool)
    requires VerifyOutcome(live, scope, value) == Ok
    ensures ApplyOutcome(live, scope, value, accept).0 != Verify
    ensures ApplyOutcome(live, scope, value, accept).0 == Apply <==>
            Changed(scope, live.app, NextConfig(live, scope, value).value) && !(Present(live, scope) && accept)
  {
  }

  /** An update that would change the options of its own service is refused while that service is missing. */
  lemma MissingServiceRefused(live: Live, scope: Section, value: Json, accept: bool)
    requires live.app.listenIp == DEFAULT_CONFIG.listenIp
    requires VerifyOutcome(live, scope, value) == Ok && !Present(live, scope)
    ensures var next := NextConfig(live, scope, value).value;
            && (scope == Rtsp && BuildRtspOptions(next) != BuildRtspOptions(live.app) ==>
                 !Accepted(live, scope, value, accept))
            && (scope == Webrtc && WebrtcOptionsFor(next, live.network) != WebrtcOptionsFor(live.app, live.network) ==>
                 !Accepted(live, scope, value, accept))
            && (scope == Onvif && BuildOnvifOptions(next) != BuildOnvifOptions(live.app) ==>
                 !Accepted(live, scope, value, accept))
  {
    var next := NextConfig(live, scope, value).value;
    NextReads(live.store, scope, value, next);
    if !Changed(scope, live.app, next) {
      OwnServiceUntouched(live.app, next, scope, live.network);
    }
  }

  lemma AcceptedStores(live: Live, scope: Section, value: Json, accept: bool)
    requires Accepted(live, scope, value, accept)
    ensures UpdateStep(live, scope, value, accept).store == live.store[scope := value]
  {
    var next := AcceptedDecides(live, scope, value, accept);
    DecideKeepsServices(live, scope, Some(next), accept);
  }

  lemma SetCodeOfUpdate(live: Live, scope: Section, value: Json, accept: bool, saves: bool)
    requires ProtocolScope(scope) && Forwarded(live, scope, value)
    ensures SetCode(live, scope, value, accept, saves) == Ok || SetCode(live, scope, value, accept, saves) == Save <==>
            Accepted(live, scope, value, accept)
  {
  }

  /** Every answer but `Ok` and `Save` leaves all as it was; with `Save` the request has taken effect. */
  lemma AnswersTell(live: Live, section: Section, value: Json, accept: bool, saves: bool)
    ensures var code := SetCode(live, section, value, accept, saves);
            var event := if ProtocolScope(section) then Update(section, value, accept) else Write(section, value);
            if code == Ok || code == Save then Step(live, event).store == live.store[section := value]
            else Step(live, event) == live
  {
    if !Forwarded(live, section, value) {
      assert section in live.store ==> live.store[section := value] == live.store;
    } else if ProtocolScope(section) {
      SetCodeOfUpdate(live, section, value, accept, saves);
      if Accepted(live, section, value, accept) {
        AcceptedStores(live, section, value, accept);
      }
    }
  }

  // ----- Theorem: skipping an apply refines always applying -----

  /** The simple machine: every accepted update pushes options, changed or not. */
  ghost function EagerStep(live: Live, event: Event): Live {
    if event.Update? && VerifyOutcome(live, event.scope, event.value) == Ok then
      var next := NextConfig(live, event.scope, event.value).value;
      Commit(Pushed(live, event.scope, next).(app := next), event.scope, event.value)
    else
      live
  }

  ghost function EagerRun(live: Live, events: seq<Event>): Live {
    if events == [] then live else EagerStep(EagerRun(live, events[..|events| - 1]), events[|events| - 1])
  }

  /** Updates that every service is willing to take. */
  ghost predicate Welcome(events: seq<Event>) {
    forall i :: 0 <= i < |events| ==> events[i].Update? && events[i].accept
  }

  ghost predicate AllPresent(live: Live) {
    live.rtsp.Some? && live.webrtc.Some? && live.onvif.Some?
  }

  lemma StoredInSync(live: Live, scope: Section)
    requires InSync(live) && ProtocolScope(scope)
    ensures scope in live.store
  {
    StoredReads(live.store, live.app);
    assert Known(scope);
    assert ParseSection(scope, Get(live.store, scope)) == Some(ViewOf(scope, live.app));
  }

  /** Pushing the options of a value that is stored already would change nothing either. */
  lemma PushingAgain(live: Live, scope: Section)
    requires Agreement(live) && AllPresent(live) && ProtocolScope(scope) && scope in live.store
    ensures EagerStep(live, Update(scope, live.store[scope], true)) == live
  {
    RewritingStores(live.store, scope);
    assert live.store[scope := live.store[scope]] == live.store;
  }

  lemma SkippingDecides(live: Live, scope: Section, next: AppConfig)
    requires Agreement(live) && AllPresent(live) && GuardAccepts(live.app, next, scope)
    requires next.listenIp == live.app.listenIp
    requires forall other | Known(other) && other != scope :: ViewOf(other, next) == ViewOf(other, live.app)
    ensures Decide(live, scope, Some(next), true) == (Ok, Pushed(live, scope, next).(app := next))
  {
    if !Changed(scope, live.app, next) {
      UndetectedIsHarmless(live.app, next, scope, live.network);
    }
  }

  lemma SkippingForwarded(live: Live, scope: Section, value: Json)
    requires Agreement(live) && AllPresent(live) && Forwarded(live, scope, value)
    ensures Step(live, Update(scope, value, true)) == EagerStep(live, Update(scope, value, true))
  {
    if VerifyOutcome(live, scope, value) == Ok {
      var next := NextConfig(live, scope, value).value;
      AllOtherViewsKept(live, scope, value, next);
      SkippingDecides(live, scope, next);
      DecidedUpdate(live, scope, value, next, true, Pushed(live, scope, next).(app := next));
    }
  }

  lemma SkippingOnce(live: Live, scope: Section, value: Json)
    requires Agreement(live) && AllPresent(live)
    ensures Step(live, Update(scope, value, true)) == EagerStep(live, Update(scope, value, true))
  {
    if Forwarded(live, scope, value) {
      SkippingForwarded(live, scope, value);
    } else if ProtocolScope(scope) {
      StoredInSync(live, scope);
      PushingAgain(live, scope);
    }
  }

  lemma {:induction false} SkippingRefinesEager(live: Live, events: seq<Event>)
    requires Agreement(live) && AllPresent(live) && Welcome(events)
    ensures Run(live, events) == EagerRun(live, events)
  {
    if events != [] {
      var before := events[..|events| - 1];
      SkippingRefinesEager(live, before);
      RunsKeepAgreement(live, before);
      RunKeepsServices(live, before);
      SkippingOnce(Run(live, before), events[|events| - 1].scope, events[|events| - 1].value);
    }
  }
}
