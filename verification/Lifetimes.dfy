/**
  The components of the application as the start and stop code sees them, the global tables that hold
  pointers to them, and what is safe at every intermediate point of every start and stop.
 */
module Lifetimes {
  import opened Wrappers
  import opened JsonValues
  import opened AppConfiguration
  import opened ConfigLoader
  import opened ConfigService
  import opened ProtocolOptions
  import opened ObjectGraphs

  datatype FoundationKind = Logger | ConfigStore | EventBus | AuditSink | Auth

  datatype DeviceKind =
    | SystemPlatform | TimePlatform | NetPlatform | UpgradePlatform
    | SystemService | TimeService | NetworkService | AlarmService | UpgradeService

  datatype MediaKind = DeviceMedia | MediaStreams | AiService

  datatype ProtocolKind =
    | CallbackLoop | SocketIo | RtspService | WebrtcService | OnvifService | NetStat | HttpService

  /** The components, by the subsystem that owns them. */
  datatype Kind = F(f: FoundationKind) | D(d: DeviceKind) | M(m: MediaKind) | P(p: ProtocolKind)

  function Layer(kind: Kind): nat {
    match kind
    case F(_) => 0
    case D(_) => 1
    case M(_) => 2
    case P(_) => 3
  }

  // ----- Who may point at whom -----

  predicate DeviceComponent(kind: Kind) {
    kind == D(SystemService) || kind == D(TimeService) || kind == D(NetworkService) || kind == D(AlarmService) || kind == D(UpgradeService)
  }

  predicate ProtocolService(kind: Kind) {
    kind == P(RtspService) || kind == P(WebrtcService) || kind == P(OnvifService) || kind == P(NetStat) || kind == P(HttpService)
  }

  /**
    Pointers come from constructor arguments, from the runtime table, from the source registry and from the
    service registry, all read while the holder is made.
   */
  predicate MayHold(holder: Kind, target: Kind) {
    match target
    case F(Logger) => holder == F(AuditSink) || DeviceComponent(holder) || holder == P(HttpService)
    case F(ConfigStore) =>
      || holder == F(Auth) || DeviceComponent(holder) || holder == M(DeviceMedia) || holder == M(AiService)
      || holder == P(HttpService)
    case F(EventBus) => DeviceComponent(holder) || holder == M(MediaStreams) || ProtocolService(holder)
    case F(AuditSink) => holder == F(Auth)
    case F(Auth) => holder == P(RtspService) || holder == P(OnvifService) || holder == P(HttpService)
    case D(SystemPlatform) => holder == D(SystemService)
    case D(TimePlatform) => holder == D(TimeService)
    case D(NetPlatform) => holder == D(NetworkService)
    case D(UpgradePlatform) => holder == D(UpgradeService)
    case D(SystemService) => holder == P(OnvifService) || holder == P(HttpService)
    case D(TimeService) => holder == P(OnvifService) || holder == P(HttpService)
    case D(NetworkService) => holder == P(HttpService)
    case D(AlarmService) => holder == M(AiService) || holder == P(HttpService)
    case D(UpgradeService) => holder == P(HttpService)
    case M(DeviceMedia) =>
      holder == M(MediaStreams) || holder == M(AiService) || holder == P(OnvifService) || holder == P(HttpService)
    case M(MediaStreams) =>
      holder == M(DeviceMedia) || holder == P(RtspService) || holder == P(WebrtcService) || holder == P(HttpService)
    case M(AiService) => holder == P(HttpService)
    case P(CallbackLoop) => holder == P(SocketIo)
    case P(SocketIo) => ProtocolService(holder)
    case P(RtspService) => holder == P(OnvifService) || holder == P(HttpService)
    case P(WebrtcService) => holder == P(HttpService)
    case P(NetStat) => holder == P(HttpService)
    case P(_) => false
  }

  predicate Platform(kind: Kind) {
    kind == D(SystemPlatform) || kind == D(TimePlatform) || kind == D(NetPlatform) || kind == D(UpgradePlatform)
  }

  /** Platforms, audit sink, frame sink, and RTSP and WebRTC for those that read them, may be missing. */
  predicate MustHold(holder: Kind, target: Kind) {
    && MayHold(holder, target)
    && !Platform(target) && target != F(AuditSink) && !(holder == M(DeviceMedia) && target == M(MediaStreams))
    && target != P(RtspService) && target != P(WebrtcService)
  }

  /** Pointers that are handed over later, once both objects are there. */
  predicate HandedOver(holder: Kind, target: Kind) {
    (holder == F(Auth) && target == F(AuditSink)) || (holder == M(DeviceMedia) && target == M(MediaStreams))
  }

  /** Pointers that are taken if the target is there; a component finds its platform, a service the one it reads. */
  predicate Takes(holder: Kind, target: Kind) {
    MayHold(holder, target) && !MustHold(holder, target) && !HandedOver(holder, target)
  }

  lemma WhoTakes(holder: Kind, target: Kind)
    requires Takes(holder, target)
    ensures holder != target
    ensures || (Platform(target) && DeviceComponent(holder))
            || (target == P(RtspService) && (holder == P(OnvifService) || holder == P(HttpService)))
            || (target == P(WebrtcService) && holder == P(HttpService))
  {
  }

  /** Platforms and the audit sink are never started. */
  predicate Passive(kind: Kind) {
    Platform(kind) || kind == F(AuditSink)
  }

  /**
    A running object needs its targets running, with two exceptions: media streams start before the device
    they ask for keyframes, and HTTP stops after the statistics it reads.
   */
  predicate MustRun(holder: Kind, target: Kind) {
    && !Passive(target)
    && !(holder == M(MediaStreams) && target == M(DeviceMedia))
    && !(holder == P(HttpService) && target == P(NetStat))
  }

  /** Stopped protocol services are destroyed after the socket layer whose loops they point to. */
  const RULES: Rules<Kind> := Rules(
    (holder: Kind, target: Kind) => MayHold(holder, target),
    (holder: Kind, target: Kind) => MustHold(holder, target),
    (holder: Kind, target: Kind) => Takes(holder, target),
    (holder: Kind, target: Kind) => MustRun(holder, target),
    (target: Kind) => target == P(SocketIo),
    (kind: Kind) => Passive(kind))

  // ----- The world -----

  /** The options a protocol service last accepted. */
  datatype Payload =
    | NoPayload
    | RtspPayload(rtsp: RtspOptions)
    | WebrtcPayload(webrtc: WebrtcOptions)
    | OnvifPayload(onvif: OnvifOptions)
    | HttpPayload(http: HttpOptions)

  type Objects = Graph<Kind, Payload>

  /**
    `runtime` and `services` are the global pointer tables, `media` the media source registry, `scopes`
    the configuration scopes attached to the live configuration service, `store` the stored sections (in its file
    while it does not run) and `answers` the address each network interface reports.
   */
  datatype World = World(
    graph: Objects, runtime: map<Kind, nat>, services: map<Kind, nat>, media: Option<nat>,
    scopes: set<Section>, store: Store, answers: map<string, string>)

  predicate RuntimeKind(kind: Kind) {
    kind == F(ConfigStore) || kind == F(Logger) || kind == F(EventBus) || kind == F(Auth) || kind == P(SocketIo)
  }

  ghost predicate RuntimeOk(w: World) {
    TableLive(w.graph, w.runtime) && forall kind | kind in w.runtime :: RuntimeKind(kind)
  }

  ghost predicate ServicesOk(w: World) {
    && TableRunning(w.graph, w.services)
    && (forall kind | kind in w.services :: ProtocolService(kind))
    && (P(HttpService) in w.services ==> P(NetStat) in w.services)
  }

  /** The media source registry, as a table. */
  function MediaTable(w: World): map<Kind, nat> {
    if w.media.Some? then map[M(MediaStreams) := w.media.value] else map[]
  }

  ghost predicate RegistriesOk(w: World) {
    TableLive(w.graph, MediaTable(w)) && (w.scopes != {} ==> F(ConfigStore) in w.graph.objs)
  }

  ghost predicate TablesOk(w: World) {
    RuntimeOk(w) && ServicesOk(w) && RegistriesOk(w)
  }

  ghost predicate WorldSafe(rules: Rules<Kind>, w: World) {
    Safe(rules, w.graph) && TablesOk(w)
  }

  // ----- Primitive steps -----

  datatype Step =
    | Object(op: Op<Kind, Payload>)
    | Install(kind: Kind)
    | Uninstall(kind: Kind)
    | ClearRuntime
    | Register(kind: Kind)
    | Unregister(kind: Kind)
    | ClearServices
    | RegisterMedia
    | ClearMedia
    | AttachScope(scope: Section)
    | DetachScope(scope: Section)
    | StoreSection(section: Section, value: Json)
    | ReadFile(defaults: Store)
    | ChangeAddresses(answers: map<string, string>)

  predicate Unreferenced(w: World, kind: Kind) {
    kind !in w.runtime && kind !in w.services && (kind == M(MediaStreams) ==> w.media.None?)
  }

  ghost predicate MayObject(rules: Rules<Kind>, w: World, op: Op<Kind, Payload>) {
    && Allowed(rules, w.graph, op)
    && (op.Stop? ==> op.kind !in w.services)
    && (op.Destroy? ==> Unreferenced(w, op.kind))
  }

  /** A destroyed configuration service takes its scopes with it. */
  function NextObject(w: World, op: Op<Kind, Payload>): World
    requires Possible(w.graph, op)
  {
    w.(graph := Do(w.graph, op),
       scopes := if op.Destroy? && op.kind == F(ConfigStore) then {} else w.scopes)
  }

  /** The condition on a step that touches no object. */
  predicate MayTable(w: World, step: Step) {
    match step
    case Object(_) => false
    case Install(kind) => RuntimeKind(kind) && kind in w.graph.objs
    case Register(kind) =>
      ProtocolService(kind) && Running(w.graph, kind) && (kind == P(HttpService) ==> P(NetStat) in w.services)
    case Unregister(kind) => kind == P(NetStat) ==> P(HttpService) !in w.services
    case RegisterMedia => M(MediaStreams) in w.graph.objs
    case AttachScope(_) => F(ConfigStore) in w.graph.objs
    case _ => true
  }

  function NextTable(w: World, step: Step): World
    requires MayTable(w, step)
  {
    match step
    case Install(kind) => w.(runtime := w.runtime[kind := w.graph.objs[kind].id])
    case Uninstall(kind) => w.(runtime := w.runtime - {kind})
    case ClearRuntime => w.(runtime := map[])
    case Register(kind) => w.(services := w.services[kind := w.graph.objs[kind].id])
    case Unregister(kind) => w.(services := w.services - {kind})
    case ClearServices => w.(services := map[])
    case RegisterMedia => w.(media := Some(w.graph.objs[M(MediaStreams)].id))
    case ClearMedia => w.(media := None)
    case AttachScope(scope) => w.(scopes := w.scopes + {scope})
    case DetachScope(scope) => w.(scopes := w.scopes - {scope})
    case StoreSection(section, value) => w.(store := w.store[section := value])
    case ReadFile(defaults) => w.(store := Merge(w.store, defaults))
    case ChangeAddresses(answers) => w.(answers := answers)
  }

  // ----- Every permitted step is safe, under any rules -----

  lemma ObjectStepSafe(rules: Rules<Kind>, w: World, op: Op<Kind, Payload>)
    requires WorldSafe(rules, w) && MayObject(rules, w, op)
    ensures WorldSafe(rules, NextObject(w, op))
  {
    DoSafe(rules, w.graph, op);
    DoKeepsLiveTable(rules, w.graph, op, w.runtime);
    DoKeepsRunningTable(rules, w.graph, op, w.services);
    DoKeepsLiveTable(rules, w.graph, op, MediaTable(w));
    ConfigKept(rules, w, op);
  }

  lemma ConfigKept(rules: Rules<Kind>, w: World, op: Op<Kind, Payload>)
    requires RegistriesOk(w) && MayObject(rules, w, op)
    ensures NextObject(w, op).scopes != {} ==> F(ConfigStore) in NextObject(w, op).graph.objs
  {
  }

  lemma RuntimeStepSafe(w: World, kind: Kind)
    requires TablesOk(w)
    ensures TablesOk(w.(runtime := w.runtime - {kind}))
    ensures TablesOk(w.(runtime := map[]))
    ensures RuntimeKind(kind) && kind in w.graph.objs ==>
              TablesOk(w.(runtime := w.runtime[kind := w.graph.objs[kind].id]))
  {
  }

  lemma RegisterSafe(w: World, kind: Kind)
    requires ServicesOk(w) && ProtocolService(kind) && Running(w.graph, kind)
    requires kind == P(HttpService) ==> P(NetStat) in w.services
    ensures ServicesOk(w.(services := w.services[kind := w.graph.objs[kind].id]))
  {
  }

  lemma UnregisterSafe(w: World, kind: Kind)
    requires ServicesOk(w) && (kind == P(NetStat) ==> P(HttpService) !in w.services)
    ensures ServicesOk(w.(services := w.services - {kind}))
  {
  }

  lemma ClearServicesSafe(w: World)
    ensures ServicesOk(w.(services := map[]))
  {
  }

  /** The runtime table and the registries do not look at the service table. */
  lemma ServicesApart(w: World, services: map<Kind, nat>)
    requires RuntimeOk(w) && RegistriesOk(w)
    ensures RuntimeOk(w.(services := services)) && RegistriesOk(w.(services := services))
  {
  }

  lemma OtherTableStepSafe(w: World, step: Step)
    requires TablesOk(w) && MayTable(w, step)
    requires step.RegisterMedia? || step.ClearMedia? || step.AttachScope? || step.DetachScope? || step.StoreSection? || step.ReadFile? ||
             step.ChangeAddresses?
    ensures TablesOk(NextTable(w, step))
  {
    var w' := NextTable(w, step);
    assert MediaTable(w') == MediaTable(w) || w'.media.None? || step.RegisterMedia?;
  }

  lemma TableStepSafe(w: World, step: Step)
    requires TablesOk(w) && MayTable(w, step)
    ensures TablesOk(NextTable(w, step)) && NextTable(w, step).graph == w.graph
  {
    match step
    case Install(kind) => RuntimeStepSafe(w, kind);
    case Uninstall(kind) => RuntimeStepSafe(w, kind);
    case ClearRuntime => RuntimeStepSafe(w, F(Logger));
    case Register(kind) =>
      RegisterSafe(w, kind);
      ServicesApart(w, NextTable(w, step).services);
    case Unregister(kind) =>
      UnregisterSafe(w, kind);
      ServicesApart(w, NextTable(w, step).services);
    case ClearServices =>
      ClearServicesSafe(w);
      ServicesApart(w, NextTable(w, step).services);
    case _ => OtherTableStepSafe(w, step);
  }

  // ----- What safety means -----

  lemma NeededRuns(w: World, kind: Kind, needed: Kind)
    requires WorldSafe(RULES, w) && Running(w.graph, kind) && MustHold(kind, needed) && MustRun(kind, needed)
    ensures Running(w.graph, needed)
  {
    assert RULES.mustHold(kind, needed) && RULES.mustRun(kind, needed);
    RunningClosed(RULES, w.graph, kind, needed);
  }

  /** A registered service runs, and so do the socket layer and the callback loop under it. */
  lemma RegisteredRuns(w: World, service: Kind)
    requires WorldSafe(RULES, w) && service in w.services
    ensures Running(w.graph, service) && Running(w.graph, P(SocketIo)) && Running(w.graph, P(CallbackLoop))
    ensures service == P(HttpService) ==> Running(w.graph, P(NetStat))
  {
    NeededRuns(w, service, P(SocketIo));
    NeededRuns(w, P(SocketIo), P(CallbackLoop));
  }

  /** What a running service stands on: for HTTP, all of the other layers, and the socket layer with its loop. */
  predicate Beneath(service: ProtocolKind, kind: Kind) {
    match service
    case RtspService =>
      || kind == P(SocketIo) || kind == P(CallbackLoop) || kind == M(MediaStreams)
      || kind == F(Auth) || kind == F(ConfigStore) || kind == F(EventBus)
    case WebrtcService =>
      kind == P(SocketIo) || kind == P(CallbackLoop) || kind == M(MediaStreams) || kind == F(EventBus)
    case OnvifService =>
      || kind == P(SocketIo) || kind == P(CallbackLoop) || kind == M(DeviceMedia)
      || kind == D(SystemService) || kind == D(TimeService)
      || kind == F(Auth) || kind == F(ConfigStore) || kind == F(EventBus) || kind == F(Logger)
    case HttpService => !Passive(kind) && (kind.P? ==> kind == P(SocketIo) || kind == P(CallbackLoop))
    case NetStat => kind == P(SocketIo) || kind == P(CallbackLoop) || kind == F(EventBus)
    case SocketIo => kind == P(CallbackLoop)
    case CallbackLoop => false
  }

  /** The component through which a service needs another one: the service itself, unless it does not hold it. */
  function Through(service: ProtocolKind, kind: Kind): Kind {
    if kind == P(CallbackLoop) && service != SocketIo then P(SocketIo)
    else if service == RtspService && kind == F(ConfigStore) then F(Auth)
    else if service == OnvifService && (kind == F(ConfigStore) || kind == F(Logger)) then D(SystemService)
    else P(service)
  }

  lemma NeededThrough(service: ProtocolKind, kind: Kind)
    requires Beneath(service, kind)
    ensures MustHold(Through(service, kind), kind) && MustRun(Through(service, kind), kind)
    ensures Through(service, kind) != P(service) ==>
              MustHold(P(service), Through(service, kind)) && MustRun(P(service), Through(service, kind))
  {
  }

  /** A running service has everything beneath it running. */
  lemma ServiceRestsOn(w: World, service: ProtocolKind, kind: Kind)
    requires WorldSafe(RULES, w) && Running(w.graph, P(service)) && Beneath(service, kind)
    ensures Running(w.graph, kind)
  {
    NeededThrough(service, kind);
    if Through(service, kind) != P(service) {
      NeededRuns(w, P(service), Through(service, kind));
    }
    NeededRuns(w, Through(service, kind), kind);
  }

  lemma NotBeneathHttp(kind: Kind)
    requires !Passive(kind) && !Beneath(HttpService, kind)
    ensures kind == P(HttpService) || kind == P(RtspService) || kind == P(WebrtcService) || kind == P(OnvifService) ||
            kind == P(NetStat)
  {
    match kind.p
    case _ =>
  }

  /** While HTTP runs, everything that can be started runs, but for the services that HTTP can do without. */
  lemma HttpRestsOnEverything(w: World, kind: Kind)
    requires WorldSafe(RULES, w) && Running(w.graph, P(HttpService))
    requires !Passive(kind) && !Running(w.graph, kind)
    ensures kind == P(RtspService) || kind == P(WebrtcService) || kind == P(OnvifService) || kind == P(NetStat)
  {
    if Beneath(HttpService, kind) {
      ServiceRestsOn(w, HttpService, kind);
    } else {
      NotBeneathHttp(kind);
    }
  }

  /**
    Whatever an object may point at and is there, it does point at, and at no predecessor of it, but for the two
    pointers that are handed over later, and save that a stopped protocol service may be left with an old one
    to the socket layer.
   */
  lemma HoldsAllThereIs(w: World, holder: Kind, target: Kind)
    requires WorldSafe(RULES, w) && holder in w.graph.objs && target in w.graph.objs
    requires MayHold(holder, target) && !HandedOver(holder, target)
    ensures target in w.graph.objs[holder].refs
    ensures Alive(w.graph, target, w.graph.objs[holder].refs[target]) || target == P(SocketIo)
  {
    assert RULES.takes(holder, target) == Takes(holder, target) && RULES.mustHold(holder, target) == MustHold(holder, target);
    assert RefOk(RULES, w.graph, holder, target);
  }

  /** The targets that may stand still while their holder runs. */
  lemma StillOnlyWhereAllowed(w: World, holder: Kind, target: Kind)
    requires WorldSafe(RULES, w) && Running(w.graph, holder) && target in w.graph.objs[holder].refs
    requires !Running(w.graph, target)
    ensures Passive(target) || (holder == M(MediaStreams) && target == M(DeviceMedia)) ||
            (holder == P(HttpService) && target == P(NetStat))
  {
    assert RefOk(RULES, w.graph, holder, target);
    assert RULES.mustRun(holder, target) == MustRun(holder, target);
  }

  /** A live object never holds a dangling pointer, save a stopped protocol service to the socket layer. */
  lemma DanglingOnlyToSockets(w: World, holder: Kind, target: Kind)
    requires WorldSafe(RULES, w) && holder in w.graph.objs && target in w.graph.objs[holder].refs
    requires !Alive(w.graph, target, w.graph.objs[holder].refs[target])
    ensures target == P(SocketIo) && ProtocolService(holder) && !w.graph.objs[holder].running
  {
    DanglingOnlyWhenStopped(RULES, w.graph, holder, target);
    assert RefOk(RULES, w.graph, holder, target);
    assert MayHold(holder, target);
  }
}
