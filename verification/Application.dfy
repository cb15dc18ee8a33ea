/**
  The application: the four subsystems in order, over one machine, and the sessions it can go through.
 */
module Applications {
  import opened Wrappers
  import opened JsonValues
  import opened AppConfiguration
  import opened ConfigLoader
  import opened ConfigService
  import opened ProtocolOptions
  import opened ObjectGraphs
  import opened Lifetimes
  import opened Machines
  import opened Foundation
  import opened Device
  import opened Media
  import opened ProtocolServices
  import opened ProtocolTeardown
  import opened Protocol
  import opened ConfigRequests
  import opened Reconfiguration
  import opened Restarts
  import opened ServedOptions

  // ----- Stopping everything, on values -----

  /** Nothing is left but the stopped callback loop: no pointer in any table, no scope. */
  predicate AllDown(w: World) {
    && (forall kind | kind in w.graph.objs :: kind == P(CallbackLoop) && !w.graph.objs[kind].running)
    && w.runtime == map[] && w.services == map[] && w.media.None? && w.scopes == {}
  }

  ghost const ALL_DOWN: iset<World> := iset w: World | AllDown(w)

  /** The outcome of stopping the application, from whatever state. */
  function AllStopped(w: World): World {
    FoundationStopped(DeviceStopped(MediaStopped(ProtocolStopped(w))))
  }

  lemma EveryFoundationKind(kind: FoundationKind)
    ensures F(kind) in FOUNDATION_KINDS
  {
    match kind
    case Logger =>
    case ConfigStore =>
    case EventBus =>
    case AuditSink =>
    case Auth =>
  }

  lemma AllStoppedAt(w: World, kind: Kind)
    requires kind in AllStopped(w).graph.objs
    ensures kind == P(CallbackLoop) && !AllStopped(w).graph.objs[kind].running
  {
    ProtocolStoppedAt(w, kind);
    match kind
    case F(f) => EveryFoundationKind(f);
    case D(d) => EveryDeviceKind(d);
    case M(media) => EveryMediaKind(media);
    case P(p) => OnlyLoopIsNeither(p);
  }

  lemma AllStoppedIsDown(w: World)
    ensures AllStopped(w) in ALL_DOWN
    ensures AllStopped(w).store == w.store && AllStopped(w).answers == w.answers
  {
    forall kind | kind in AllStopped(w).graph.objs
      ensures kind == P(CallbackLoop) && !AllStopped(w).graph.objs[kind].running
    {
      AllStoppedAt(w, kind);
    }
  }

  /** Stopping a stopped application changes nothing: a second stop is harmless. */
  lemma StoppingTwice(w: World)
    ensures AllStopped(AllStopped(w)) == AllStopped(w)
  {
    AllStoppedIsDown(w);
    DownStaysDown(AllStopped(w));
  }

  lemma DownStaysDown(w: World)
    requires w in ALL_DOWN
    ensures AllStopped(w) == w
  {
    var w1 := ProtocolStopped(w);
    assert w1.graph.objs == w.graph.objs;
    var w2 := MediaStopped(w1);
    assert w2.graph.objs == w.graph.objs;
    var w3 := DeviceStopped(w2);
    assert w3.graph.objs == w.graph.objs;
    assert FoundationStopped(w3).graph.objs == w.graph.objs;
    assert w1.runtime == w.runtime;
  }

  // ----- Where a start may begin -----

  lemma DownIsStartable(w: World)
    requires w in ALL_DOWN
    ensures FoundationAbsent(w) && FoundationStoppable(w) && ProtocolDown(w)
  {
  }

  lemma BareDeviceLayer(w: World)
    requires FoundationStoppable(w)
    ensures DeviceAbsent(w) && NothingAbove(1, w)
  {
  }

  lemma BareMediaLayer(w: World)
    requires DeviceStoppable(w)
    ensures MediaAbsent(w) && NothingAbove(2, w)
  {
  }

  lemma BareProtocolLayer(rules: Rules<Kind>, w: World)
    requires rules == RULES && WorldSafe(rules, w) && MediaStoppable(w)
    ensures w in DOWN
  {
    TablesKeepToKinds(w);
  }

  // ----- Success -----

  /** A null and an empty override both leave the stored static root alone. */
  function Given(override: Option<string>): string {
    if override.Some? then override.value else ""
  }

  predicate StackStarts(paths: StartupPaths, fate: Fate) {
    paths.Complete() && FoundationStarts(fate) && DeviceStarts(fate) && MediaStarts(fate)
  }

  /** The calls on which the start of the whole application depends. */
  predicate ApplicationStarts(paths: StartupPaths, file: Store, defaults: Store, fate: Fate) {
    StackStarts(paths, fate) && Load(StoredRoot(Merge(file, defaults))).Some? && ProtocolStarts({}, fate)
  }

  /** The calls without any one of which no start succeeds, layer by layer. */
  const BASE_CALLS: set<Call> :=
    {Makes(F(Logger)), Starts(F(Logger)), Makes(F(ConfigStore)), Starts(F(ConfigStore)), Makes(F(EventBus)), Starts(F(EventBus)),
     Makes(F(Auth)), Starts(F(Auth)), Installs(F(ConfigStore)), Installs(F(Logger)), Installs(F(EventBus)), Installs(F(Auth))}

  const DEVICE_CALLS: set<Call> :=
    {Makes(D(SystemService)), Starts(D(SystemService)), Makes(D(TimeService)), Starts(D(TimeService)),
     Makes(D(NetworkService)), Starts(D(NetworkService)), Makes(D(AlarmService)), Starts(D(AlarmService)),
     Makes(D(UpgradeService)), Starts(D(UpgradeService))}

  const MEDIA_CALLS: set<Call> :=
    {Makes(M(DeviceMedia)), Starts(M(DeviceMedia)), Makes(M(MediaStreams)), Starts(M(MediaStreams)), TakesFrameSink,
     RegistersMedia, Makes(M(AiService)), Starts(M(AiService))}

  const PROTOCOL_CALLS: set<Call> :=
    {Starts(P(CallbackLoop)), Makes(P(SocketIo)), Starts(P(SocketIo)), Installs(P(SocketIo)),
     Makes(P(NetStat)), Starts(P(NetStat)), Registers(P(NetStat)),
     Makes(P(HttpService)), Starts(P(HttpService)), Registers(P(HttpService))}

  const SCOPE_CALLS: set<Call> := {AddsScope(Http), AddsScope(Rtsp), AddsScope(Webrtc), AddsScope(Onvif)}

  lemma LowerLayersIff(fate: Fate)
    ensures FoundationStarts(fate) <==> BASE_CALLS <= fate
    ensures DeviceStarts(fate) <==> DEVICE_CALLS <= fate
    ensures MediaStarts(fate) <==> MEDIA_CALLS <= fate
  {
  }

  lemma ScopesIff(fate: Fate)
    ensures ScopesAttach(|SCOPES|, {}, fate) <==> SCOPE_CALLS <= fate
  {
    assert SCOPES[0] == Http && SCOPES[1] == Rtsp && SCOPES[2] == Webrtc && SCOPES[3] == Onvif;
  }

  /** Each user of a loop finds one. */
  predicate LoopsFound(fate: Fate) {
    forall user: ProtocolKind |
      user == RtspService || user == WebrtcService || user == OnvifService || user == HttpService ::
      PicksLoop(P(user)) in fate || HasDefaultLoop(P(user)) in fate
  }

  /** No optional service that comes up is refused by the registry. */
  predicate OptionalTaken(fate: Fate) {
    forall service: ProtocolKind | service == RtspService || service == WebrtcService || service == OnvifService ::
      Makes(P(service)) in fate && Starts(P(service)) in fate ==> Registers(P(service)) in fate
  }

  lemma TopLayerIff(fate: Fate)
    ensures SocketsStart(fate) && ServicesStart(fate) <==> PROTOCOL_CALLS <= fate && LoopsFound(fate) && OptionalTaken(fate)
  {
    if SocketsStart(fate) && ServicesStart(fate) {
      assert HasLoop(fate, RtspService) && HasLoop(fate, WebrtcService) && HasLoop(fate, OnvifService);
    }
  }

  /** A start succeeds if and only if the paths are given, the sections load once filled in, and these calls succeed. */
  lemma StartsIff(paths: StartupPaths, file: Store, defaults: Store, fate: Fate)
    ensures ApplicationStarts(paths, file, defaults, fate) <==>
            && paths.businessConfig.Some? && paths.defaultConfig.Some? && paths.authUsers.Some? && paths.operationLog.Some?
            && Load(StoredRoot(Merge(file, defaults))).Some?
            && BASE_CALLS + DEVICE_CALLS + MEDIA_CALLS + PROTOCOL_CALLS + SCOPE_CALLS <= fate
            && LoopsFound(fate) && OptionalTaken(fate)
  {
    LowerLayersIff(fate);
    ScopesIff(fate);
    TopLayerIff(fate);
  }

  class Application {
    const m: Machine
    const foundation: FoundationSubsystem
    const device: DeviceSubsystem
    const media: MediaSubsystem
    const protocol: ProtocolSubsystem
    var appConfig: AppConfig
    var started: bool

    /** One machine under all; no raw pointer dangles. */
    ghost predicate Shared()
      reads this, protocol, m
    {
      foundation.m == m && device.m == m && media.m == m && protocol.m == m && protocol.Linked()
    }

    ghost predicate Valid()
      reads this, foundation, device, media, protocol, m
    {
      && Shared()
      && foundation.started == started && device.started == started && media.started == started
      && protocol.started == started && protocol.config.Some? == started
      && m.w in if started then UP else ALL_DOWN
    }

    constructor (file: Store, defaults: Store, answers: map<string, string>)
      ensures Valid() && !started && m.w == EmptyWorld(file, answers) && m.defaults == defaults
      ensures fresh(m) && fresh(foundation) && fresh(device) && fresh(media) && fresh(protocol)
    {
      EmptyWorldSafe(RULES, file, answers);
      var machine := new Machine(EmptyWorld(file, answers), defaults);
      m := machine;
      foundation := new FoundationSubsystem(machine);
      device := new DeviceSubsystem(machine);
      media := new MediaSubsystem(machine);
      protocol := new ProtocolSubsystem(machine);
      appConfig := DEFAULT_CONFIG;
      started := false;
    }

    // ----- Stop -----

    /** Stops the layers from the top down, whatever is left of them. */
    method Stop()
      requires Shared()
      modifies this, foundation, device, media, protocol, m
      ensures Valid() && !started && old(m.trace) <= m.trace
      ensures m.w == AllStopped(old(m.w)) && m.w.store == old(m.w).store && m.w.answers == old(m.w).answers
    {
      AllStoppedIsDown(m.w);
      StopUpper();
      StopLower();
      started := false;
    }

    /** The protocol and media layers; whatever scopes are left go with the foundation. */
    method StopUpper()
      requires Shared()
      modifies media, protocol, m
      ensures Shared() && !media.started && !protocol.started && protocol.config.None? && old(m.trace) <= m.trace
      ensures m.w == MediaStopped(ProtocolStopped(old(m.w))).(scopes := m.w.scopes)
      ensures DeviceStoppable(m.w)
    {
      StoppedIsDown(m.w);
      MediaStoppedIsStoppable(ProtocolStopped(m.w));
      protocol.Stop();
      media.Stop();
    }

    method StopLower()
      requires Shared() && DeviceStoppable(m.w) && protocol.config.None?
      modifies foundation, device, m
      ensures Shared() && !foundation.started && !device.started && old(m.trace) <= m.trace
      ensures m.w == FoundationStopped(DeviceStopped(old(m.w)))
    {
      DeviceStoppedIsStoppable(m.w);
      device.Stop();
      foundation.Stop();
    }

    // ----- Start -----

    /** The foundation, and the configuration from its store. */
    method StartBase(paths: StartupPaths, override: Option<string>, fate: Fate) returns (ok: bool)
      requires Valid() && !started
      modifies this, foundation, m
      ensures Shared() && old(m.trace) <= m.trace && protocol.config.None? && !started
      ensures m.w.store == SectionsAfterStart(paths, fate, old(m.w).store, m.defaults) && m.w.answers == old(m.w).answers
      ensures ok == (paths.Complete() && FoundationStarts(fate) &&
                     Load(StoredRoot(Merge(old(m.w).store, m.defaults))).Some?)
      ensures ok ==> FoundationUp(m.w) && FoundationStoppable(m.w) && m.w.scopes == {} && foundation.started
      ensures ok ==> StartConfig(m.w.store, Given(override)) == Some(appConfig)
    {
      DownIsStartable(m.w);
      ok := foundation.Start(paths, fate);
      if ok {
        var loaded;
        ok, loaded := LoadAppConfig(m.w.store, DEFAULT_CONFIG);
        if ok {
          if override.Some? && override.value != "" {
            loaded := loaded.(staticRoot := override.value);
          }
          appConfig := loaded;
        }
      }
    }

    method StartMiddle(fate: Fate) returns (ok: bool)
      requires Shared() && FoundationUp(m.w) && FoundationStoppable(m.w) && !device.started && !media.started
      modifies device, media, m
      ensures Shared() && old(m.trace) <= m.trace
      ensures m.w == old(m.w).(graph := m.w.graph, media := m.w.media)
      ensures ok == (DeviceStarts(fate) && MediaStarts(fate))
      ensures ok ==> m.w in STACKED && MediaStoppable(m.w) && device.started && media.started
    {
      BareDeviceLayer(m.w);
      ok := device.Start(fate);
      if ok {
        BareMediaLayer(m.w);
        ok := media.Start(fate);
      }
    }

    lemma ProtocolIsDown()
      requires m.Valid() && m.rules == RULES && MediaStoppable(m.w)
      ensures m.w in DOWN
    {
      m.NowSafe();
      BareProtocolLayer(m.rules, m.w);
    }

    method StartTop(fate: Fate) returns (ok: bool)
      requires Shared() && m.w in STACKED && !protocol.started && protocol.config.None?
      requires m.w.scopes == {} && m.w in DOWN
      modifies protocol, m
      ensures Shared() && old(m.trace) <= m.trace
      ensures m.w.store == old(m.w).store && m.w.answers == old(m.w).answers
      ensures ok == ProtocolStarts({}, fate)
      ensures ok ==> protocol.Valid() && protocol.started
      ensures ok ==> protocol.View() == Fresh(m.w.store, appConfig, Some(m.w.answers), StartedFrom(fate))
    {
      ok := protocol.Start(appConfig, fate);
    }

    /** Everything above the foundation, as far as it comes. */
    method StartUpper(fate: Fate) returns (ok: bool)
      requires Shared() && FoundationUp(m.w) && FoundationStoppable(m.w) && m.w.scopes == {}
      requires !device.started && !media.started && !protocol.started && protocol.config.None?
      modifies device, media, protocol, m
      ensures Shared() && old(m.trace) <= m.trace
      ensures m.w.store == old(m.w).store && m.w.answers == old(m.w).answers
      ensures ok == (DeviceStarts(fate) && MediaStarts(fate) && ProtocolStarts({}, fate))
      ensures ok ==> m.w in UP && protocol.config.Some? && protocol.started && device.started && media.started
      ensures ok ==> protocol.View() == Fresh(m.w.store, appConfig, Some(m.w.answers), StartedFrom(fate))
    {
      ok := StartMiddle(fate);
      if ok {
        ProtocolIsDown();
        ok := StartTop(fate);
      }
    }

    /** The four layers, bottom up, as far as they come. */
    method StartLayers(paths: StartupPaths, override: Option<string>, fate: Fate) returns (ok: bool)
      requires Valid() && !started
      modifies this, foundation, device, media, protocol, m
      ensures Shared() && old(m.trace) <= m.trace && !started
      ensures m.w.store == SectionsAfterStart(paths, fate, old(m.w).store, m.defaults) && m.w.answers == old(m.w).answers
      ensures ok == ApplicationStarts(paths, old(m.w).store, m.defaults, fate)
      ensures ok ==> m.w in UP && protocol.config.Some? && protocol.started
      ensures ok ==> foundation.started && device.started && media.started
      ensures ok ==> StartConfig(m.w.store, Given(override)) == Some(appConfig)
      ensures ok ==> protocol.View() == Fresh(m.w.store, appConfig, Some(m.w.answers), StartedFrom(fate))
    {
      ok := StartBase(paths, override, fate);
      if ok {
        ok := StartUpper(fate);
      }
    }

    /** A start that succeeded is kept; one that failed stops what it had started. */
    method Conclude(ok: bool)
      requires Shared() && !started
      requires ok ==> m.w in UP && protocol.config.Some? && protocol.started
      requires ok ==> foundation.started && device.started && media.started
      modifies this, foundation, device, media, protocol, m
      ensures Valid() && started == ok && old(m.trace) <= m.trace
      ensures m.w.store == old(m.w).store && m.w.answers == old(m.w).answers
      ensures ok ==> unchanged(protocol, m) && appConfig == old(appConfig)
    {
      if ok {
        started := true;
      } else {
        Stop();
      }
    }

    method StartOrStop(paths: StartupPaths, override: Option<string>, fate: Fate) returns (ok: bool)
      requires Valid() && !started
      modifies this, foundation, device, media, protocol, m
      ensures Valid() && started == ok && old(m.trace) <= m.trace
      ensures ok == ApplicationStarts(paths, old(m.w).store, m.defaults, fate)
      ensures m.w.store == SectionsAfterStart(paths, fate, old(m.w).store, m.defaults) && m.w.answers == old(m.w).answers
      ensures ok ==> StartConfig(m.w.store, Given(override)) == Some(appConfig)
      ensures ok ==> protocol.View() == Fresh(m.w.store, appConfig, Some(m.w.answers), StartedFrom(fate))
    {
      ok := StartLayers(paths, override, fate);
      Conclude(ok);
    }

    /**
      Succeeds exactly when every call it depends on does, and then the services run with the options built
      from the stored configuration.  Otherwise everything is stopped again, and only the stored sections,
      filled in if it came to that, the interface addresses and the stopped callback loop remain.
     */
    method Start(paths: StartupPaths, override: Option<string>, fate: Fate) returns (ok: bool)
      requires Valid()
      modifies this, foundation, device, media, protocol, m
      ensures Valid() && started == ok && old(m.trace) <= m.trace
      ensures ok == (old(started) || ApplicationStarts(paths, old(m.w).store, m.defaults, fate))
      ensures old(started) ==> m.w == old(m.w) && protocol.View() == old(protocol.View())
      ensures m.w.answers == old(m.w).answers
      ensures !old(started) ==> m.w.store == SectionsAfterStart(paths, fate, old(m.w).store, m.defaults)
      ensures !old(started) && ok ==>
                StartOn(old(m.w).store, m.defaults, Given(override), Some(m.w.answers), StartedFrom(fate)) ==
                Some(protocol.View())
      ensures Connected(m.w)
    {
      if started {
        m.NowSafe();
        SafeIsConnected(m.w);
        return true;
      }
      ok := StartOrStop(paths, override, fate);
      m.NowSafe();
      SafeIsConnected(m.w);
    }
  }

  // ----- Sessions -----

  /** The state of the reconfiguration machine in which a session starts. */
  function StartOf(file: Store, defaults: Store, override: Option<string>, answers: map<string, string>, fate: Fate): Option<Live> {
    StartOn(file, defaults, Given(override), Some(answers), StartedFrom(fate))
  }

  /** The override, if there is one, repeats the static root that is stored. */
  predicate Redundant(sections: Store, override: string)
    requires Load(StoredRoot(sections)).Some?
  {
    override == "" || override == Load(StoredRoot(sections)).value.staticRoot
  }

  /**
    What any session shows at its end, with any override: near agreement, and HTTP agrees if and only if the
    override is redundant, no update was accepted, or the first accepted one was of `http`.
   */
  lemma SessionNearlyAgrees(file: Store, defaults: Store, override: string, network: NetworkAnswers, up: Started,
                            requests: seq<Request>)
    requires StartOn(file, defaults, override, network, up).Some?
    ensures var start := StartOn(file, defaults, override, network, up).value;
            var live := Run(start, EventsOf(requests));
            && NearAgreement(live)
            && (HttpAgrees(live) <==>
                 Redundant(Merge(file, defaults), override) || FirstAccepted(start, EventsOf(requests)) == None ||
                 FirstAccepted(start, EventsOf(requests)) == Some(Http))
  {
    var start := StartOn(file, defaults, override, network, up).value;
    RequestsAreLegal(requests);
    BootIsNear(Merge(file, defaults), override, network, up);
    RunsKeepNearAgreement(start, EventsOf(requests));
    HttpAgreementAfterRun(start, EventsOf(requests));
  }

  /**
    At the end of any session each option that a protocol section feeds is the JSON member it stands for in the
    section stored by then; after protocol updates alone, so are those that the other sections feed.
   */
  lemma SessionServes(file: Store, defaults: Store, override: string, network: NetworkAnswers, up: Started,
                      requests: seq<Request>)
    requires StartOn(file, defaults, override, network, up).Some?
    ensures var live := Run(StartOn(file, defaults, override, network, up).value, EventsOf(requests));
            ProtocolOptionsServe(live) && (OnlyProtocol(requests) ==> OtherOptionsServe(live))
  {
    RequestsAreLegal(requests);
    RunsServe(file, defaults, override, network, up, EventsOf(requests));
    if OnlyProtocol(requests) {
      UpdateRunsServe(file, defaults, override, network, up, EventsOf(requests));
    }
  }

  /** In a session of protocol updates alone, nothing but HTTP can lag. */
  lemma SessionAgrees(file: Store, defaults: Store, override: string, network: NetworkAnswers, up: Started,
                      requests: seq<Request>)
    requires StartOn(file, defaults, override, network, up).Some? && OnlyProtocol(requests)
    ensures var live := Run(StartOn(file, defaults, override, network, up).value, EventsOf(requests));
            OnlyUpdates(EventsOf(requests)) && RtspAgrees(live) && WebrtcAgrees(live) && OnvifAgrees(live)
  {
    RequestsAreLegal(requests);
    if Redundant(Merge(file, defaults), override) {
      RunsKeepAgreement(StartOn(file, defaults, override, network, up).value, EventsOf(requests));
    } else {
      OverriddenRunAgrees(Merge(file, defaults), override, network, up, EventsOf(requests));
    }
  }

  /**
    From a cold start through any sequence of requests: if the start succeeds, the running services follow
    the reconfiguration machine from its boot state.
   */
  method Session(app: Application, paths: StartupPaths, override: Option<string>, fate: Fate, requests: seq<Request>)
    returns (ok: bool)
    requires app.Valid() && !app.started
    modifies app, app.foundation, app.device, app.media, app.protocol, app.m
    ensures app.Valid() && app.started == ok && old(app.m.trace) <= app.m.trace
    ensures ok == ApplicationStarts(paths, old(app.m.w).store, app.m.defaults, fate)
    ensures ok ==>
              var start := StartOf(old(app.m.w).store, app.m.defaults, override, old(app.m.w).answers, fate);
              start.Some? && app.protocol.View() == Run(start.value, EventsOf(requests))
    ensures ok ==> ProtocolOptionsServe(app.protocol.View())
  {
    ghost var file, answers := app.m.w.store, app.m.w.answers;
    ok := app.Start(paths, override, fate);
    if ok {
      ServeAll(app.protocol, requests);
      SessionServes(file, app.m.defaults, Given(override), Some(answers), StartedFrom(fate), requests);
    }
  }

  datatype Command =
    | StartUp(paths: StartupPaths, override: Option<string>, fate: Fate)
    | ShutDown
    | Ask(request: Request)

  /** What runs rests on what must run beneath it, and every registered service runs. */
  ghost predicate Layered(w: World) {
    && (forall service <- w.services ::
          Running(w.graph, service) && Running(w.graph, P(SocketIo)) && Running(w.graph, P(CallbackLoop)))
    && forall kind, needed | Running(w.graph, kind) && MustHold(kind, needed) && MustRun(kind, needed) ::
         Running(w.graph, needed)
  }

  /**
    No pointer dangles, in an object or in a table, save that of a stopped protocol service to the socket
    layer: not the frame sink, the source registry, the audit sink nor any pointer of the runtime.
   */
  ghost predicate Pointed(w: World) {
    && (forall kind <- w.runtime :: Alive(w.graph, kind, w.runtime[kind]))
    && (w.media.Some? ==> Alive(w.graph, M(MediaStreams), w.media.value))
    && (forall holder, target | holder in w.graph.objs && target in w.graph.objs[holder].refs ::
          Alive(w.graph, target, w.graph.objs[holder].refs[target]) ||
          (target == P(SocketIo) && ProtocolService(holder) && !w.graph.objs[holder].running))
  }

  /**
    Every object points at every object there is that it may point at, but for the two pointers that are handed
    over once both are there.
   */
  ghost predicate Connected(w: World) {
    forall holder, target | holder in w.graph.objs && target in w.graph.objs && MayHold(holder, target) &&
                            !HandedOver(holder, target) :: target in w.graph.objs[holder].refs
  }

  lemma SafeIsConnected(w: World)
    requires WorldSafe(RULES, w)
    ensures Connected(w)
  {
    forall holder, target | holder in w.graph.objs && target in w.graph.objs && MayHold(holder, target) &&
                            !HandedOver(holder, target)
      ensures target in w.graph.objs[holder].refs
    {
      HoldsAllThereIs(w, holder, target);
    }
  }

  lemma SafeIsPointed(w: World)
    requires WorldSafe(RULES, w)
    ensures Pointed(w)
  {
    assert w.media.Some? ==> M(MediaStreams) in MediaTable(w);
    forall holder, target | holder in w.graph.objs && target in w.graph.objs[holder].refs &&
                            !Alive(w.graph, target, w.graph.objs[holder].refs[target])
      ensures target == P(SocketIo) && ProtocolService(holder) && !w.graph.objs[holder].running
    {
      DanglingOnlyToSockets(w, holder, target);
    }
  }

  lemma SafeIsLayered(w: World)
    requires WorldSafe(RULES, w)
    ensures Layered(w)
  {
    forall service <- w.services
      ensures Running(w.graph, service) && Running(w.graph, P(SocketIo)) && Running(w.graph, P(CallbackLoop))
    {
      RegisteredRuns(w, service);
    }
    forall kind, needed | Running(w.graph, kind) && MustHold(kind, needed) && MustRun(kind, needed)
      ensures Running(w.graph, needed)
    {
      NeededRuns(w, kind, needed);
    }
  }

  lemma TraceIsSound(m: Machine)
    requires m.Valid() && m.rules == RULES
    ensures forall w <- m.trace :: Layered(w) && Pointed(w) && Connected(w)
    ensures forall i | 0 < i < |m.trace| :: OneStep(RULES, m.trace[i - 1], m.trace[i])
  {
    forall i | 0 <= i < |m.trace|
      ensures Layered(m.trace[i]) && Pointed(m.trace[i]) && Connected(m.trace[i])
      ensures i > 0 ==> OneStep(RULES, m.trace[i - 1], m.trace[i])
    {
      assert WorldSafe(m.rules, m.trace[i]);
      SafeIsLayered(m.trace[i]);
      SafeIsPointed(m.trace[i]);
      SafeIsConnected(m.trace[i]);
    }
  }

  /** A request reaches the configuration service only while the application runs. */
  method PassTo(app: Application, request: Request)
    requires app.Valid()
    modifies app.protocol, app.m
    ensures app.Valid() && old(app.m.trace) <= app.m.trace
  {
    if app.started {
      Take(app.protocol, request);
    }
  }

  method Obey(app: Application, command: Command)
    requires app.Valid()
    modifies app, app.foundation, app.device, app.media, app.protocol, app.m
    ensures app.Valid() && old(app.m.trace) <= app.m.trace
  {
    match command
    case StartUp(paths, override, fate) =>
      var ok := app.Start(paths, override, fate);
    case ShutDown =>
      app.Stop();
    case Ask(request) =>
      PassTo(app, request);
  }

  /**
    Any sequence of starts, stops and requests, with any calls failing, goes one permitted step at a time, and
    in every state passed through on the way what runs rests on what must run, no pointer dangles, and none is missing.
   */
  method Drive(app: Application, commands: seq<Command>)
    requires app.Valid()
    modifies app, app.foundation, app.device, app.media, app.protocol, app.m
    ensures app.Valid() && old(app.m.trace) <= app.m.trace
    ensures forall w <- app.m.trace :: Layered(w) && Pointed(w) && Connected(w)
    ensures forall i | 0 < i < |app.m.trace| :: OneStep(RULES, app.m.trace[i - 1], app.m.trace[i])
  {
    for i := 0 to |commands|
      invariant app.Valid() && old(app.m.trace) <= app.m.trace
    {
      Obey(app, commands[i]);
    }
    TraceIsSound(app.m);
  }
}
