/**
  The protocol services on values: what each stage of starting and stopping them makes of the world.
 */
module ProtocolServices {
  import opened Wrappers
  import opened ObjectGraphs
  import opened Lifetimes
  import opened Machines
  import opened Foundation
  import opened Device
  import opened Media

  /** Everything the protocol services stand on. */
  predicate StackUp(w: World) {
    FoundationUp(w) && DeviceUp(w) && MediaUp(w)
  }

  /** The part of the stack that protocol services point at, and the socket layer under them. */
  predicate ServicesReady(w: World) {
    && Running(w.graph, P(SocketIo))
    && Running(w.graph, F(Logger)) && Running(w.graph, F(ConfigStore)) && Running(w.graph, F(EventBus))
    && Running(w.graph, F(Auth))
    && Running(w.graph, D(SystemService)) && Running(w.graph, D(TimeService)) && Running(w.graph, D(NetworkService))
    && Running(w.graph, D(AlarmService)) && Running(w.graph, D(UpgradeService))
    && Running(w.graph, M(DeviceMedia)) && Running(w.graph, M(MediaStreams)) && Running(w.graph, M(AiService))
  }

  predicate IsService(kind: ProtocolKind) {
    ProtocolService(P(kind))
  }

  // ----- Pointers -----

  function Id(w: World, kind: Kind): nat
    requires kind in w.graph.objs
  {
    w.graph.objs[kind].id
  }

  /**
    The pointers each service is made with, those it reads from the runtime table and the registries included.
    ONVIF and HTTP take RTSP, and HTTP takes WebRTC, only if that is there.
   */
  function ServiceRefs(w: World, kind: ProtocolKind): map<Kind, nat>
    requires ServicesReady(w) && IsService(kind)
  {
    var common := map[P(SocketIo) := Id(w, P(SocketIo)), F(EventBus) := Id(w, F(EventBus))];
    match kind
    case RtspService => common[F(Auth) := Id(w, F(Auth))][M(MediaStreams) := Id(w, M(MediaStreams))]
    case WebrtcService => common[M(MediaStreams) := Id(w, M(MediaStreams))]
    case OnvifService =>
      WithOptional(
        common[F(Auth) := Id(w, F(Auth))][D(SystemService) := Id(w, D(SystemService))]
              [D(TimeService) := Id(w, D(TimeService))][M(DeviceMedia) := Id(w, M(DeviceMedia))],
        w, P(RtspService))
    case NetStat => common
    case HttpService => WithReaders(HttpRefs(w, common), w)
  }

  /** The pointers of the HTTP service to other layers. */
  function HttpRefs(w: World, common: map<Kind, nat>): map<Kind, nat>
    requires ServicesReady(w)
  {
    common[F(Auth) := Id(w, F(Auth))][F(Logger) := Id(w, F(Logger))][F(ConfigStore) := Id(w, F(ConfigStore))]
          [D(NetworkService) := Id(w, D(NetworkService))][D(TimeService) := Id(w, D(TimeService))]
          [D(AlarmService) := Id(w, D(AlarmService))][D(UpgradeService) := Id(w, D(UpgradeService))]
          [D(SystemService) := Id(w, D(SystemService))][M(AiService) := Id(w, M(AiService))]
          [M(DeviceMedia) := Id(w, M(DeviceMedia))][M(MediaStreams) := Id(w, M(MediaStreams))]
  }

  /** The services the HTTP service reads from. */
  function WithReaders(refs: map<Kind, nat>, w: World): map<Kind, nat> {
    WithOptional(WithOptional(WithOptional(refs, w, P(RtspService)), w, P(WebrtcService)), w, P(NetStat))
  }

  lemma RtspNeeds(target: Kind)
    requires MustHold(P(RtspService), target)
    ensures target == P(SocketIo) || target == F(EventBus) || target == F(Auth) || target == M(MediaStreams)
  {
  }

  lemma WebrtcNeeds(target: Kind)
    requires MustHold(P(WebrtcService), target)
    ensures target == P(SocketIo) || target == F(EventBus) || target == M(MediaStreams)
  {
  }

  lemma OnvifNeeds(target: Kind)
    requires MustHold(P(OnvifService), target)
    ensures target == P(SocketIo) || target == F(EventBus) || target == F(Auth) ||
            target == D(SystemService) || target == D(TimeService) || target == M(DeviceMedia)
  {
  }

  lemma NetStatNeeds(target: Kind)
    requires MustHold(P(NetStat), target)
    ensures target == P(SocketIo) || target == F(EventBus)
  {
  }

  lemma HttpNeeds(target: Kind)
    requires MustHold(P(HttpService), target)
    ensures target == P(SocketIo) || target == P(NetStat) || DeviceComponent(target) || target.M? ||
            target == F(EventBus) || target == F(Auth) || target == F(Logger) || target == F(ConfigStore)
  {
  }

  lemma ServiceHasNeeds(w: World, kind: ProtocolKind, target: Kind)
    requires ServicesReady(w) && IsService(kind) && MustHold(P(kind), target)
    requires target == P(NetStat) ==> P(NetStat) in w.graph.objs
    ensures target in ServiceRefs(w, kind)
  {
    match kind
    case RtspService => RtspNeeds(target);
    case WebrtcService => WebrtcNeeds(target);
    case OnvifService => OnvifNeeds(target);
    case NetStat => NetStatNeeds(target);
    case HttpService => HttpNeeds(target);
  }

  lemma ServiceTakes(w: World, kind: ProtocolKind, target: Kind)
    requires ServicesReady(w) && IsService(kind) && Takes(P(kind), target) && target in w.graph.objs
    ensures target in ServiceRefs(w, kind)
  {
    WhoTakes(P(kind), target);
  }

  /** Every service is made with a pointer to every object there is that it may point at. */
  lemma RefsAreComplete(w: World, kind: ProtocolKind, target: Kind)
    requires ServicesReady(w) && IsService(kind) && MayHold(P(kind), target) && target in w.graph.objs
    ensures target in ServiceRefs(w, kind)
  {
    if MustHold(P(kind), target) {
      ServiceHasNeeds(w, kind, target);
    } else {
      ServiceTakes(w, kind, target);
    }
  }

  /** RTSP and WebRTC run if they are there. */
  predicate ReadersRun(w: World) {
    && (P(RtspService) in w.graph.objs ==> Running(w.graph, P(RtspService)))
    && (P(WebrtcService) in w.graph.objs ==> Running(w.graph, P(WebrtcService)))
  }

  lemma HttpRefGood(w: World, common: map<Kind, nat>, target: Kind)
    requires ServicesReady(w) && target in HttpRefs(w, common)
    requires common == map[P(SocketIo) := Id(w, P(SocketIo)), F(EventBus) := Id(w, F(EventBus))]
    ensures MayHold(P(HttpService), target) && Alive(w.graph, target, HttpRefs(w, common)[target])
    ensures w.graph.objs[target].running
  {
  }

  lemma ReaderGood(w: World, refs: map<Kind, nat>, target: Kind)
    requires ReadersRun(w) && target in WithReaders(refs, w)
    requires target in refs ==>
               MayHold(P(HttpService), target) && Alive(w.graph, target, refs[target]) && w.graph.objs[target].running
    ensures MayHold(P(HttpService), target) && Alive(w.graph, target, WithReaders(refs, w)[target])
    ensures MustRun(P(HttpService), target) ==> w.graph.objs[target].running
  {
  }

  lemma ServiceRefGood(w: World, kind: ProtocolKind, target: Kind)
    requires ServicesReady(w) && IsService(kind) && target in ServiceRefs(w, kind) && ReadersRun(w)
    ensures MayHold(P(kind), target) && Alive(w.graph, target, ServiceRefs(w, kind)[target])
    ensures MustRun(P(kind), target) ==> w.graph.objs[target].running
  {
    match kind
    case HttpService =>
      var common := map[P(SocketIo) := Id(w, P(SocketIo)), F(EventBus) := Id(w, F(EventBus))];
      if target in HttpRefs(w, common) {
        HttpRefGood(w, common, target);
      }
      ReaderGood(w, HttpRefs(w, common), target);
    case OnvifService =>
    case NetStat =>
    case RtspService =>
    case WebrtcService =>
  }

  /** Those who would read from the service are not there yet. */
  predicate ReadersAbsent(w: World, kind: ProtocolKind) {
    && (kind == RtspService || kind == WebrtcService ==> P(HttpService) !in w.graph.objs)
    && (kind == RtspService ==> P(OnvifService) !in w.graph.objs)
  }

  lemma ServiceTaken(w: World, kind: ProtocolKind, holder: Kind)
    requires IsService(kind) && ReadersAbsent(w, kind) && Takes(holder, P(kind))
    ensures holder !in w.graph.objs && holder != P(kind)
  {
    WhoTakes(holder, P(kind));
  }

  lemma ServiceReady(rules: Rules<Kind>, w: World, kind: ProtocolKind)
    requires rules == RULES && ServicesReady(w) && IsService(kind) && P(kind) !in w.graph.objs && ReadersRun(w)
    requires ReadersAbsent(w, kind) && (kind == HttpService ==> P(NetStat) in w.graph.objs)
    ensures RefsReady(rules, w, P(kind), ServiceRefs(w, kind))
  {
    forall target: Kind | rules.mustHold(P(kind), target)
      ensures target in ServiceRefs(w, kind)
    {
      NetStatNeeded(kind, target);
      ServiceHasNeeds(w, kind, target);
    }
    forall target: Kind | rules.takes(P(kind), target) && target in w.graph.objs
      ensures target in ServiceRefs(w, kind)
    {
      ServiceTakes(w, kind, target);
    }
    forall holder: Kind | rules.takes(holder, P(kind))
      ensures holder !in w.graph.objs && holder != P(kind)
    {
      ServiceTaken(w, kind, holder);
    }
    forall target | target in ServiceRefs(w, kind)
      ensures rules.mayHold(P(kind), target) && Alive(w.graph, target, ServiceRefs(w, kind)[target])
      ensures rules.mustRun(P(kind), target) ==> w.graph.objs[target].running
    {
      ServiceRefGood(w, kind, target);
    }
  }

  lemma NetStatNeeded(kind: ProtocolKind, target: Kind)
    requires MustHold(P(kind), target)
    ensures target == P(NetStat) ==> kind == HttpService
  {
  }

  // ----- Starting -----

  /** A loop for `user`: one the socket layer picks, else its default one. */
  predicate HasLoop(fate: Fate, user: ProtocolKind) {
    PicksLoop(P(user)) in fate || HasDefaultLoop(P(user)) in fate
  }

  predicate SocketsStart(fate: Fate) {
    && Starts(P(CallbackLoop)) in fate
    && Makes(P(SocketIo)) in fate && Starts(P(SocketIo)) in fate && Installs(P(SocketIo)) in fate
    && HasLoop(fate, RtspService) && HasLoop(fate, WebrtcService) && HasLoop(fate, OnvifService)
    && HasLoop(fate, HttpService)
  }

  predicate ComesUp(fate: Fate, kind: ProtocolKind) {
    Makes(P(kind)) in fate && Starts(P(kind)) in fate
  }

  /** An optional service may stay away, but if it comes up it must be registered. */
  predicate OptionalStarts(fate: Fate, kind: ProtocolKind) {
    ComesUp(fate, kind) ==> Registers(P(kind)) in fate
  }

  predicate MandatoryStarts(fate: Fate, kind: ProtocolKind) {
    ComesUp(fate, kind) && Registers(P(kind)) in fate
  }

  predicate ServicesStart(fate: Fate) {
    && OptionalStarts(fate, RtspService) && OptionalStarts(fate, WebrtcService) && OptionalStarts(fate, OnvifService)
    && MandatoryStarts(fate, NetStat) && MandatoryStarts(fate, HttpService)
  }

  /** The callback loop, made once and kept. */
  function LoopMade(w: World): World {
    w.(graph := if P(CallbackLoop) in w.graph.objs then w.graph
                else Graph(w.graph.nextId + 1, w.graph.objs[P(CallbackLoop) := Obj(w.graph.nextId, false, map[], NoPayload)]))
  }

  function LoopStarted(w: World): World {
    if P(CallbackLoop) in w.graph.objs
    then Put(w, w.graph.nextId, CallbackLoop, w.graph.objs[P(CallbackLoop)].(running := true))
    else Put(w, w.graph.nextId + 1, CallbackLoop, Obj(w.graph.nextId, true, map[], NoPayload))
  }

  function SocketRefs(w: World): map<Kind, nat>
    requires P(CallbackLoop) in w.graph.objs
  {
    map[P(CallbackLoop) := Id(w, P(CallbackLoop))]
  }

  function SocketLayerStarted(w: World, fate: Fate): World
    requires P(CallbackLoop) in w.graph.objs
  {
    w.(graph := Brought(w, P(SocketIo), SocketRefs(w), NoPayload, fate).graph,
       runtime := if ComesUp(fate, SocketIo) && Installs(P(SocketIo)) in fate
                  then w.runtime[P(SocketIo) := w.graph.nextId]
                  else w.runtime)
  }

  function SocketsStarted(w: World, fate: Fate): World {
    if Starts(P(CallbackLoop)) !in fate then LoopMade(w) else
    SocketLayerStarted(LoopStarted(w), fate)
  }

  lemma SocketReady(rules: Rules<Kind>, w: World)
    requires rules == RULES && Running(w.graph, P(CallbackLoop)) && P(SocketIo) !in w.graph.objs
    ensures RefsReady(rules, w, P(SocketIo), SocketRefs(w))
  {
    forall target: Kind | MustHold(P(SocketIo), target)
      ensures target in SocketRefs(w)
    {
      assert target == P(CallbackLoop);
    }
    PlainReady(rules, w, P(SocketIo), SocketRefs(w));
  }

  function Registered(w: World, kind: ProtocolKind): World
    requires P(kind) in w.graph.objs
  {
    w.(services := w.services[P(kind) := Id(w, P(kind))])
  }

  function Put(w: World, nextId: nat, kind: ProtocolKind, obj: Obj<Kind, Payload>): World {
    w.(graph := Graph(nextId, w.graph.objs[P(kind) := obj]))
  }

  function Dropped(w: World, nextId: nat, kind: ProtocolKind): World {
    w.(graph := Graph(nextId, w.graph.objs - {P(kind)}))
  }

  function StartedObj(w: World, refs: map<Kind, nat>, payload: Payload): Obj<Kind, Payload> {
    Obj(w.graph.nextId, true, refs, payload)
  }

  /** A service that does not come up is let go again; one that does is registered if the registry takes it. */
  function OptionalTried(w: World, kind: ProtocolKind, refs: map<Kind, nat>, payload: Payload, fate: Fate): World {
    w.(graph := Graph(if Makes(P(kind)) in fate then w.graph.nextId + 1 else w.graph.nextId,
                      if ComesUp(fate, kind)
                      then w.graph.objs[P(kind) := StartedObj(w, refs, payload)]
                      else w.graph.objs - {P(kind)}),
       services := if MandatoryStarts(fate, kind) then w.services[P(kind) := w.graph.nextId] else w.services)
  }

  function MandatoryTried(w: World, kind: ProtocolKind, refs: map<Kind, nat>, payload: Payload, fate: Fate): World {
    w.(graph := if Makes(P(kind)) in fate
                then Graph(w.graph.nextId + 1,
                           w.graph.objs[P(kind) := Obj(w.graph.nextId, (Starts(P(kind)) in fate), refs, payload)])
                else w.graph,
       services := if MandatoryStarts(fate, kind) then w.services[P(kind) := w.graph.nextId] else w.services)
  }

  // ----- What stays -----

  // Properties of worlds that are only handed on are sets of worlds: the verifier then treats membership as one fact.

  /** The worlds with the stack up. */
  ghost const STACKED: iset<World> := iset w: World | StackUp(w)

  /** The worlds with the stack up and the socket layer running on top of it. */
  ghost const STANDING: iset<World> :=
    iset w: World | w in STACKED && Running(w.graph, P(SocketIo)) && Running(w.graph, P(CallbackLoop))

  lemma StandingHasOwners(w: World)
    requires w in STANDING
    ensures F(ConfigStore) in w.graph.objs && D(NetworkService) in w.graph.objs
  {
  }

  lemma StandingIsReady(w: World)
    requires w in STANDING
    ensures ServicesReady(w)
  {
  }

  lemma StackPublishes(w: World, target: Kind)
    requires w in STACKED
    ensures target.F? && target != F(AuditSink) ==> target in w.runtime
    ensures w.media.Some?
  {
    if target.F? {
      assert target.f == Logger || target.f == ConfigStore || target.f == EventBus || target.f == AuditSink || target.f == Auth;
    }
  }

  lemma ServicesHoldNoSink(kind: ProtocolKind)
    ensures !MayHold(P(kind), F(AuditSink))
  {
  }

  lemma TablesAgree(w: World, target: Kind, id: nat)
    requires TablesOk(w) && Alive(w.graph, target, id)
    ensures target in w.runtime ==> w.runtime[target] == id
    ensures target in w.services ==> w.services[target] == id
    ensures target == M(MediaStreams) && w.media.Some? ==> w.media == Some(id)
  {
    assert w.media.Some? ==> M(MediaStreams) in MediaTable(w);
  }

  /** What the runtime table, the source registry and the service registry hand out for `target`, if anything, is `id`. */
  predicate Published(w: World, target: Kind, id: nat) {
    && (target in w.runtime ==> w.runtime[target] == id)
    && (target in w.services ==> w.services[target] == id)
    && (target == M(MediaStreams) ==> w.media == Some(id))
    && (target.F? ==> target in w.runtime)
  }

  /** The pointers a service is made with are the ones that the global tables hand out at that time. */
  lemma RefsArePublished(w: World, kind: ProtocolKind, target: Kind)
    requires TablesOk(w) && w in STACKED && ServicesReady(w) && ReadersRun(w)
    requires IsService(kind) && target in ServiceRefs(w, kind)
    ensures Published(w, target, ServiceRefs(w, kind)[target])
  {
    ServiceRefGood(w, kind, target);
    AliveIsPublished(w, kind, target, ServiceRefs(w, kind)[target]);
  }

  lemma AliveIsPublished(w: World, kind: ProtocolKind, target: Kind, id: nat)
    requires TablesOk(w) && w in STACKED && MayHold(P(kind), target) && Alive(w.graph, target, id)
    ensures Published(w, target, id)
  {
    TablesAgree(w, target, id);
    StackPublishes(w, target);
    ServicesHoldNoSink(kind);
  }

  lemma PutKeepsStack(w: World, nextId: nat, kind: ProtocolKind, obj: Obj<Kind, Payload>)
    requires w in STACKED
    ensures Put(w, nextId, kind, obj) in STACKED
  {
    var w' := Put(w, nextId, kind, obj);
    assert FoundationUp(w');
    assert DeviceUp(w');
    assert MediaUp(w');
  }

  lemma DropKeepsStack(w: World, nextId: nat, kind: ProtocolKind)
    requires w in STACKED
    ensures Dropped(w, nextId, kind) in STACKED
  {
    var w' := Dropped(w, nextId, kind);
    assert FoundationUp(w');
    assert DeviceUp(w');
    assert MediaUp(w');
  }

  lemma TablesKeepStack(w: World, runtime: map<Kind, nat>, services: map<Kind, nat>)
    requires w in STACKED && w.runtime.Keys <= runtime.Keys
    ensures w.(services := services) in STACKED && w.(runtime := runtime) in STACKED
  {
  }

  lemma PutStands(w: World, nextId: nat, kind: ProtocolKind, obj: Obj<Kind, Payload>)
    requires w in STANDING && IsService(kind)
    ensures Put(w, nextId, kind, obj) in STANDING
    ensures Registered(Put(w, nextId, kind, obj), kind) in STANDING
  {
    PutKeepsStack(w, nextId, kind, obj);
    var w1 := Put(w, nextId, kind, obj);
    TablesKeepStack(w1, w1.runtime, Registered(w1, kind).services);
  }

  lemma DropStands(w: World, nextId: nat, kind: ProtocolKind)
    requires w in STANDING && IsService(kind)
    ensures Dropped(w, nextId, kind) in STANDING
  {
    DropKeepsStack(w, nextId, kind);
  }

  lemma ComesUpAs(w: World, kind: ProtocolKind, refs: map<Kind, nat>, payload: Payload, fate: Fate)
    requires MandatoryStarts(fate, kind)
    ensures OptionalTried(w, kind, refs, payload, fate) ==
            Registered(Put(w, w.graph.nextId + 1, kind, StartedObj(w, refs, payload)), kind)
    ensures MandatoryTried(w, kind, refs, payload, fate) == OptionalTried(w, kind, refs, payload, fate)
  {
  }

  /** The outcome of bringing a service up, or letting it go again. */
  function BroughtOrDropped(w: World, kind: ProtocolKind, refs: map<Kind, nat>, payload: Payload, fate: Fate): World {
    if ComesUp(fate, kind) then Brought(w, P(kind), refs, payload, fate) else OptionalTried(w, kind, refs, payload, fate)
  }

  function RegisteredIf(w: World, kind: ProtocolKind, fate: Fate): World
    requires P(kind) in w.graph.objs
  {
    if Registers(P(kind)) in fate then Registered(w, kind) else w
  }

  lemma CameUpAs(w: World, kind: ProtocolKind, refs: map<Kind, nat>, payload: Payload, fate: Fate)
    requires ComesUp(fate, kind)
    ensures Running(BroughtOrDropped(w, kind, refs, payload, fate).graph, P(kind))
    ensures OptionalTried(w, kind, refs, payload, fate) ==
            RegisteredIf(BroughtOrDropped(w, kind, refs, payload, fate), kind, fate)
  {
  }

  /** The service is not registered, and those who would read from it are not there. */
  predicate Vacant(w: World, kind: ProtocolKind) {
    && P(kind) !in w.services && P(HttpService) !in w.graph.objs
    && (kind == RtspService ==> P(OnvifService) !in w.graph.objs)
  }

  lemma BroughtVacant(w: World, kind: ProtocolKind, refs: map<Kind, nat>, payload: Payload, fate: Fate)
    requires Vacant(w, kind) && kind != HttpService && P(kind) !in w.graph.objs
    ensures Vacant(Brought(w, P(kind), refs, payload, fate), kind)
    ensures BroughtOrDropped(w, kind, refs, payload, fate) ==
            if ComesUp(fate, kind) then Brought(w, P(kind), refs, payload, fate)
            else Retired(Brought(w, P(kind), refs, payload, fate), P(kind))
  {
    if !ComesUp(fate, kind) {
      AwayAs(w, kind, refs, payload, fate);
    }
  }

  lemma AwayAs(w: World, kind: ProtocolKind, refs: map<Kind, nat>, payload: Payload, fate: Fate)
    requires P(kind) !in w.graph.objs && !ComesUp(fate, kind)
    ensures Retired(Brought(w, P(kind), refs, payload, fate), P(kind)) == OptionalTried(w, kind, refs, payload, fate)
  {
    assert Brought(w, P(kind), refs, payload, fate).graph.objs - {P(kind)} == w.graph.objs - {P(kind)};
  }

  lemma MandatoryStands(w: World, kind: ProtocolKind, refs: map<Kind, nat>, payload: Payload, fate: Fate)
    requires w in STANDING && IsService(kind) && MandatoryStarts(fate, kind)
    ensures MandatoryTried(w, kind, refs, payload, fate) in STANDING
  {
    ComesUpAs(w, kind, refs, payload, fate);
    PutStands(w, w.graph.nextId + 1, kind, StartedObj(w, refs, payload));
  }

  lemma AbsentStands(w: World, kind: ProtocolKind, refs: map<Kind, nat>, payload: Payload, fate: Fate)
    requires w in STANDING && IsService(kind) && !ComesUp(fate, kind)
    ensures OptionalTried(w, kind, refs, payload, fate) in STANDING
  {
    var nextId := if Makes(P(kind)) in fate then w.graph.nextId + 1 else w.graph.nextId;
    assert OptionalTried(w, kind, refs, payload, fate) == Dropped(w, nextId, kind);
    DropStands(w, nextId, kind);
  }

  lemma OptionalStands(w: World, kind: ProtocolKind, refs: map<Kind, nat>, payload: Payload, fate: Fate)
    requires w in STANDING && IsService(kind) && OptionalStarts(fate, kind)
    ensures OptionalTried(w, kind, refs, payload, fate) in STANDING
  {
    if ComesUp(fate, kind) {
      ComesUpAs(w, kind, refs, payload, fate);
      MandatoryStands(w, kind, refs, payload, fate);
    } else {
      AbsentStands(w, kind, refs, payload, fate);
    }
  }

  /** The service runs with these options and is registered. */
  predicate Serving(w: World, kind: ProtocolKind, payload: Payload) {
    Running(w.graph, P(kind)) && w.graph.objs[P(kind)].payload == payload && P(kind) in w.services
  }

  predicate NotServing(w: World, kind: ProtocolKind) {
    P(kind) !in w.graph.objs && P(kind) !in w.services
  }

  /** The worlds in which the service runs with these options and is registered if `up`, and is absent otherwise. */
  ghost function ServingIf(up: bool, kind: ProtocolKind, payload: Payload): iset<World> {
    iset w: World | if up then Serving(w, kind, payload) else NotServing(w, kind)
  }

  lemma OptionalServes(w: World, kind: ProtocolKind, refs: map<Kind, nat>, payload: Payload, fate: Fate)
    requires P(kind) !in w.services && OptionalStarts(fate, kind)
    ensures OptionalTried(w, kind, refs, payload, fate) in ServingIf(ComesUp(fate, kind), kind, payload)
  {
  }

  lemma PutKeepsOther(w: World, nextId: nat, kind: ProtocolKind, obj: Obj<Kind, Payload>,
                      up: bool, other: ProtocolKind, taken: Payload)
    requires other != kind && w in ServingIf(up, other, taken)
    ensures Put(w, nextId, kind, obj) in ServingIf(up, other, taken)
    ensures Registered(Put(w, nextId, kind, obj), kind) in ServingIf(up, other, taken)
  {
  }

  lemma DropKeepsOther(w: World, nextId: nat, kind: ProtocolKind, up: bool, other: ProtocolKind, taken: Payload)
    requires other != kind && w in ServingIf(up, other, taken)
    ensures Dropped(w, nextId, kind) in ServingIf(up, other, taken)
  {
  }

  lemma MandatoryKeepsOther(w: World, kind: ProtocolKind, refs: map<Kind, nat>, payload: Payload, fate: Fate,
                            up: bool, other: ProtocolKind, taken: Payload)
    requires other != kind && w in ServingIf(up, other, taken) && MandatoryStarts(fate, kind)
    ensures MandatoryTried(w, kind, refs, payload, fate) in ServingIf(up, other, taken)
  {
    ComesUpAs(w, kind, refs, payload, fate);
    PutKeepsOther(w, w.graph.nextId + 1, kind, StartedObj(w, refs, payload), up, other, taken);
  }

  lemma OptionalKeepsOther(w: World, kind: ProtocolKind, refs: map<Kind, nat>, payload: Payload, fate: Fate,
                           up: bool, other: ProtocolKind, taken: Payload)
    requires other != kind && w in ServingIf(up, other, taken) && OptionalStarts(fate, kind)
    ensures OptionalTried(w, kind, refs, payload, fate) in ServingIf(up, other, taken)
  {
    if ComesUp(fate, kind) {
      ComesUpAs(w, kind, refs, payload, fate);
      MandatoryKeepsOther(w, kind, refs, payload, fate, up, other, taken);
    } else {
      var nextId := if Makes(P(kind)) in fate then w.graph.nextId + 1 else w.graph.nextId;
      assert OptionalTried(w, kind, refs, payload, fate) == Dropped(w, nextId, kind);
      DropKeepsOther(w, nextId, kind, up, other, taken);
    }
  }

  // ----- Which services are up, and with what options -----

  /** The services that are up, with the options each took. */
  type Lineup = map<ProtocolKind, Payload>

  /** What the service runs with, if it is in the line-up. */
  function Taken(lineup: Lineup, kind: ProtocolKind): Payload {
    if kind in lineup then lineup[kind] else NoPayload
  }

  function AddIf(up: bool, lineup: Lineup, kind: ProtocolKind, payload: Payload): (added: Lineup)
    ensures forall other | other in added :: other in lineup || other == kind
  {
    if up then lineup[kind := payload] else lineup
  }

  /** The worlds in which exactly the services of the line-up run and are registered; the others are absent. */
  ghost function Fielding(lineup: Lineup): iset<World> {
    iset w: World |
      && w in STANDING
      && forall kind: ProtocolKind | IsService(kind) ::
           w in ServingIf(kind in lineup, kind, Taken(lineup, kind))
  }

  lemma FieldsAt(w: World, lineup: Lineup, kind: ProtocolKind)
    requires w in Fielding(lineup) && IsService(kind)
    ensures kind in lineup ==> Serving(w, kind, lineup[kind])
    ensures kind !in lineup ==> NotServing(w, kind)
  {
    assert w in ServingIf(kind in lineup, kind, Taken(lineup, kind));
  }

  lemma ServiceFree(rules: Rules<Kind>, w: World, lineup: Lineup, kind: ProtocolKind)
    requires rules == RULES && w in Fielding(lineup) && IsService(kind) && kind !in lineup && HttpService !in lineup
    requires (kind == HttpService ==> NetStat in lineup) && (kind == RtspService ==> OnvifService !in lineup)
    ensures ServicesReady(w) && RefsReady(rules, w, P(kind), ServiceRefs(w, kind))
    ensures P(kind) !in w.services && P(HttpService) !in w.graph.objs
    ensures kind == HttpService ==> P(NetStat) in w.services
  {
    FieldsAt(w, lineup, kind);
    FieldsAt(w, lineup, HttpService);
    FieldsAt(w, lineup, OnvifService);
    FieldsAt(w, lineup, RtspService);
    FieldsAt(w, lineup, WebrtcService);
    FieldsAt(w, lineup, NetStat);
    StandingIsReady(w);
    ServiceReady(rules, w, kind);
  }

  /** Nothing outside the objects and the service registry differs. */
  predicate SameRest(w: World, w': World) {
    && w'.store == w.store && w'.answers == w.answers && w'.scopes == w.scopes
    && w'.runtime == w.runtime && w'.media == w.media
  }

  lemma OptionalFrame(w: World, kind: ProtocolKind, refs: map<Kind, nat>, payload: Payload, fate: Fate)
    ensures SameRest(w, OptionalTried(w, kind, refs, payload, fate))
  {
  }

  lemma MandatoryFrame(w: World, kind: ProtocolKind, refs: map<Kind, nat>, payload: Payload, fate: Fate)
    ensures SameRest(w, MandatoryTried(w, kind, refs, payload, fate))
  {
  }

  lemma OptionalFieldsAt(w: World, lineup: Lineup, kind: ProtocolKind, refs: map<Kind, nat>, payload: Payload, fate: Fate,
                         other: ProtocolKind)
    requires P(kind) !in w.services && w in ServingIf(other in lineup, other, Taken(lineup, other))
    requires OptionalStarts(fate, kind) && kind !in lineup
    ensures var after := AddIf(ComesUp(fate, kind), lineup, kind, payload);
            OptionalTried(w, kind, refs, payload, fate) in ServingIf(other in after, other, Taken(after, other))
  {
    if other == kind {
      OptionalServes(w, kind, refs, payload, fate);
    } else {
      OptionalKeepsOther(w, kind, refs, payload, fate, other in lineup, other, Taken(lineup, other));
    }
  }

  lemma OptionalFields(w: World, lineup: Lineup, kind: ProtocolKind, refs: map<Kind, nat>, payload: Payload, fate: Fate)
    requires w in Fielding(lineup) && IsService(kind) && kind !in lineup && OptionalStarts(fate, kind)
    ensures OptionalTried(w, kind, refs, payload, fate) in Fielding(AddIf(ComesUp(fate, kind), lineup, kind, payload))
  {
    FieldsAt(w, lineup, kind);
    OptionalStands(w, kind, refs, payload, fate);
    var after := AddIf(ComesUp(fate, kind), lineup, kind, payload);
    forall other: ProtocolKind | IsService(other)
      ensures OptionalTried(w, kind, refs, payload, fate) in ServingIf(other in after, other, Taken(after, other))
    {
      OptionalFieldsAt(w, lineup, kind, refs, payload, fate, other);
    }
  }

  lemma MandatoryFields(w: World, lineup: Lineup, kind: ProtocolKind, refs: map<Kind, nat>, payload: Payload, fate: Fate)
    requires w in Fielding(lineup) && IsService(kind) && kind !in lineup && MandatoryStarts(fate, kind)
    ensures MandatoryTried(w, kind, refs, payload, fate) in Fielding(lineup[kind := payload])
  {
    ComesUpAs(w, kind, refs, payload, fate);
    OptionalFields(w, lineup, kind, refs, payload, fate);
  }

  /** What the services are to be started with. */
  datatype Offers = Offers(rtsp: Payload, webrtc: Payload, onvif: Payload, http: Payload)

  function OptionalLineup(offers: Offers, fate: Fate): (lineup: Lineup)
    ensures NetStat !in lineup && HttpService !in lineup
  {
    var l1 := AddIf(ComesUp(fate, RtspService), map[], RtspService, offers.rtsp);
    var l2 := AddIf(ComesUp(fate, WebrtcService), l1, WebrtcService, offers.webrtc);
    AddIf(ComesUp(fate, OnvifService), l2, OnvifService, offers.onvif)
  }

  /** The line-up a successful start ends with. */
  function StartingLineup(offers: Offers, fate: Fate): Lineup {
    OptionalLineup(offers, fate)[NetStat := NoPayload][HttpService := offers.http]
  }

  // ----- From a stopped protocol layer to a running socket layer -----

  predicate AllNotServing(w: World) {
    && NotServing(w, RtspService) && NotServing(w, WebrtcService) && NotServing(w, OnvifService)
    && NotServing(w, NetStat) && NotServing(w, HttpService)
  }

  lemma LoopPutKeepsStack(w: World, nextId: nat, obj: Obj<Kind, Payload>)
    requires w in STACKED && AllNotServing(w) && obj.running
    ensures var put := Put(w, nextId, CallbackLoop, obj);
            put in STACKED && Running(put.graph, P(CallbackLoop)) && AllNotServing(put)
  {
    PutKeepsStack(w, nextId, CallbackLoop, obj);
  }

  lemma LoopKeepsStack(w: World)
    requires w in STACKED && AllNotServing(w)
    ensures LoopStarted(w) in STACKED && Running(LoopStarted(w).graph, P(CallbackLoop)) && AllNotServing(LoopStarted(w))
  {
    if P(CallbackLoop) in w.graph.objs {
      LoopPutKeepsStack(w, w.graph.nextId, w.graph.objs[P(CallbackLoop)].(running := true));
    } else {
      LoopPutKeepsStack(w, w.graph.nextId + 1, Obj(w.graph.nextId, true, map[], NoPayload));
    }
  }

  lemma SocketsKeepStack(w: World, refs: map<Kind, nat>)
    requires w in STACKED && Running(w.graph, P(CallbackLoop)) && AllNotServing(w)
    ensures var put := Put(w, w.graph.nextId + 1, SocketIo, StartedObj(w, refs, NoPayload));
            put.(runtime := put.runtime[P(SocketIo) := w.graph.nextId]) in Fielding(map[])
  {
    var put := Put(w, w.graph.nextId + 1, SocketIo, StartedObj(w, refs, NoPayload));
    PutKeepsStack(w, w.graph.nextId + 1, SocketIo, StartedObj(w, refs, NoPayload));
    TablesKeepStack(put, put.runtime[P(SocketIo) := w.graph.nextId], put.services);
    var installed := put.(runtime := put.runtime[P(SocketIo) := w.graph.nextId]);
    assert AllNotServing(installed);
    var nobody: Lineup := map[];
    forall kind: ProtocolKind | IsService(kind)
      ensures installed in ServingIf(kind in nobody, kind, Taken(nobody, kind))
    {
      assert NotServing(installed, kind);
    }
  }

  lemma SocketsField(w: World, fate: Fate)
    requires w in STACKED && AllNotServing(w) && SocketsStart(fate)
    ensures SocketsStarted(w, fate) in Fielding(map[])
  {
    LoopKeepsStack(w);
    var w1 := LoopStarted(w);
    SocketsKeepStack(w1, SocketRefs(w1));
  }

  lemma SocketsFrame(w: World, fate: Fate)
    ensures var after := SocketsStarted(w, fate);
            after.store == w.store && after.answers == w.answers && after.scopes == w.scopes
  {
    var w1 := LoopStarted(w);
    assert w1 == w.(graph := w1.graph);
  }
}
