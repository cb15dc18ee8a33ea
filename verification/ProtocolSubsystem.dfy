/**
  The protocol subsystem: it starts and stops the protocol services, and takes configuration updates
  while they run.
 */
module Protocol {
  import opened Wrappers
  import opened JsonValues
  import opened AppConfiguration
  import opened ConfigLoader
  import opened ConfigChange
  import opened ProtocolOptions
  import opened ObjectGraphs
  import opened Lifetimes
  import opened Machines
  import opened Foundation
  import opened Device
  import opened Media
  import opened ProtocolServices
  import opened ProtocolTeardown
  import opened Reconfiguration

  /** The scopes under which updates reach the subsystem, in the order they are attached. */
  const SCOPES: seq<Section> := [Http, Rtsp, Webrtc, Onvif]

  function ScopeSet(n: nat): set<Section>
    requires n <= |SCOPES|
  {
    set scope | scope in SCOPES[..n]
  }

  lemma AllScopes()
    ensures ScopeSet(|SCOPES|) == {Http, Rtsp, Webrtc, Onvif}
  {
    assert SCOPES[..|SCOPES|] == [Http, Rtsp, Webrtc, Onvif];
  }

  lemma DetachedOne(before: set<Section>, n: nat, i: nat)
    requires i < n <= |SCOPES| && before !! ScopeSet(n)
    ensures before + (ScopeSet(n) - ScopeSet(i)) - {SCOPES[i]} == before + (ScopeSet(n) - ScopeSet(i + 1))
  {
    assert ScopeSet(i + 1) == ScopeSet(i) + {SCOPES[i]};
    assert SCOPES[i] in ScopeSet(n);
  }

  /** Attaching succeeds for the first `n` scopes. */
  predicate ScopesAttach(n: nat, scopes: set<Section>, fate: Fate)
    requires n <= |SCOPES|
  {
    forall i :: 0 <= i < n ==> SCOPES[i] !in scopes && AddsScope(SCOPES[i]) in fate
  }

  /** The calls on which the start of the protocol layer depends. */
  predicate ProtocolStarts(scopes: set<Section>, fate: Fate) {
    SocketsStart(fate) && ServicesStart(fate) && ScopesAttach(|SCOPES|, scopes, fate)
  }

  /** A start that fails while attaching the scopes also detaches any of the four that were attached before it. */
  function ScopesAfterStart(scopes: set<Section>, fate: Fate): set<Section> {
    if !(SocketsStart(fate) && ServicesStart(fate)) then scopes
    else if ScopesAttach(|SCOPES|, scopes, fate) then scopes + ScopeSet(|SCOPES|)
    else scopes - ScopeSet(|SCOPES|)
  }

  /**
    A failed start leaves the attached scopes as they were if and only if it failed before attaching any, or
    none of the four names had been attached by someone else.
   */
  lemma FailedStartKeepsScopes(scopes: set<Section>, fate: Fate)
    requires !ProtocolStarts(scopes, fate)
    ensures ScopesAfterStart(scopes, fate) == scopes <==>
            !(SocketsStart(fate) && ServicesStart(fate)) || scopes !! {Http, Rtsp, Webrtc, Onvif}
  {
    AllScopes();
  }

  /** The options built from a configuration. */
  function OffersFor(app: AppConfig, answers: map<string, string>): Offers {
    Offers(RtspPayload(BuildRtspOptions(app)), WebrtcPayload(WebrtcOptionsFor(app, Some(answers))),
           OnvifPayload(BuildOnvifOptions(app)), HttpPayload(BuildHttpOptions(app)))
  }

  // ----- The live state, as the reconfiguration machine sees it -----

  /** Each service carries options of its own sort. */
  predicate Typed(w: World) {
    && (P(RtspService) in w.graph.objs ==> w.graph.objs[P(RtspService)].payload.RtspPayload?)
    && (P(WebrtcService) in w.graph.objs ==> w.graph.objs[P(WebrtcService)].payload.WebrtcPayload?)
    && (P(OnvifService) in w.graph.objs ==> w.graph.objs[P(OnvifService)].payload.OnvifPayload?)
    && (P(HttpService) in w.graph.objs ==> w.graph.objs[P(HttpService)].payload.HttpPayload?)
  }

  function LiveIn(w: World, app: AppConfig, network: bool): Live
    requires Typed(w)
  {
    Live(w.store, app, if network then Some(w.answers) else None,
         if P(RtspService) in w.graph.objs then Some(w.graph.objs[P(RtspService)].payload.rtsp) else None,
         if P(WebrtcService) in w.graph.objs then Some(w.graph.objs[P(WebrtcService)].payload.webrtc) else None,
         if P(OnvifService) in w.graph.objs then Some(w.graph.objs[P(OnvifService)].payload.onvif) else None,
         if P(HttpService) in w.graph.objs then Some(w.graph.objs[P(HttpService)].payload.http) else None)
  }

  function StartedFrom(fate: Fate): Started {
    Started(ComesUp(fate, RtspService), ComesUp(fate, WebrtcService), ComesUp(fate, OnvifService))
  }

  /** A fresh line-up is typed, and shows every service with the options built from the configuration. */
  lemma FreshLive(w: World, app: AppConfig, fate: Fate)
    requires w in Fielding(StartingLineup(OffersFor(app, w.answers), fate))
    ensures Typed(w)
    ensures LiveIn(w, app, true) == Fresh(w.store, app, Some(w.answers), StartedFrom(fate))
  {
    var lineup := StartingLineup(OffersFor(app, w.answers), fate);
    FieldsAt(w, lineup, RtspService);
    FieldsAt(w, lineup, WebrtcService);
    FieldsAt(w, lineup, OnvifService);
    FieldsAt(w, lineup, HttpService);
  }

  /**
    The started protocol layer: the four scopes attached, the mandatory services registered, and no service
    present but unregistered.
   */
  ghost predicate ProtocolUp(w: World) {
    && w in STANDING && Typed(w) && ScopeSet(|SCOPES|) <= w.scopes
    && P(NetStat) in w.services && P(HttpService) in w.services
    && forall kind: ProtocolKind | IsService(kind) && P(kind) in w.graph.objs :: P(kind) in w.services
  }

  /** The worlds with the protocol layer up, and those with it down. */
  ghost const UP: iset<World> := iset w: World | ProtocolUp(w)

  ghost const DOWN: iset<World> := iset w: World | ProtocolDown(w)

  lemma FieldedIsUp(w: World, app: AppConfig, fate: Fate)
    requires w in Fielding(StartingLineup(OffersFor(app, w.answers), fate)) && ScopeSet(|SCOPES|) <= w.scopes
    ensures w in UP
  {
    FreshLive(w, app, fate);
    var lineup := StartingLineup(OffersFor(app, w.answers), fate);
    forall kind: ProtocolKind | IsService(kind)
      ensures (kind in lineup ==> P(kind) in w.services) && (kind !in lineup ==> P(kind) !in w.graph.objs)
    {
      FieldsAt(w, lineup, kind);
    }
  }

  lemma FieldingIgnoresScopes(w: World, scopes: set<Section>, lineup: Lineup)
    requires w in Fielding(lineup)
    ensures w.(scopes := scopes) in Fielding(lineup)
  {
    var w' := w.(scopes := scopes);
    assert StackUp(w');
    forall kind: ProtocolKind | IsService(kind)
      ensures w' in ServingIf(kind in lineup, kind, Taken(lineup, kind))
    {
      FieldsAt(w, lineup, kind);
    }
  }

  // ----- New options for a running service -----

  predicate Optional(kind: ProtocolKind) {
    kind == RtspService || kind == WebrtcService || kind == OnvifService
  }

  predicate Fits(kind: ProtocolKind, payload: Payload) {
    match kind
    case RtspService => payload.RtspPayload?
    case WebrtcService => payload.WebrtcPayload?
    case OnvifService => payload.OnvifPayload?
    case HttpService => payload.HttpPayload?
    case NetStat | SocketIo | CallbackLoop => payload.NoPayload?
  }

  function Retuned(w: World, kind: ProtocolKind, payload: Payload): World
    requires P(kind) in w.graph.objs
  {
    ProtocolServices.Put(w, w.graph.nextId, kind, w.graph.objs[P(kind)].(payload := payload))
  }

  /** A service that takes new options stays where it is, and so does everything else. */
  lemma RetunedStaysUp(rules: Rules<Kind>, w: World, kind: ProtocolKind, payload: Payload)
    requires w in UP && Optional(kind) && P(kind) in w.graph.objs && Fits(kind, payload)
    ensures Retuned(w, kind, payload) in UP
    ensures MayObject(rules, w, TakeOptions(P(kind), payload))
    ensures NextObject(w, TakeOptions(P(kind), payload)) == Retuned(w, kind, payload)
  {
    var w' := Retuned(w, kind, payload);
    PutStands(w, w.graph.nextId, kind, w.graph.objs[P(kind)].(payload := payload));
    assert Typed(w');
    assert forall other | IsService(other) && P(other) in w'.graph.objs :: P(other) in w.graph.objs;
  }

  // How new options show in the live state.

  lemma RtspShows(w: World, app: AppConfig, network: bool, next: AppConfig)
    requires Typed(w) && P(RtspService) in w.graph.objs
    ensures var w' := Retuned(w, RtspService, RtspPayload(BuildRtspOptions(next)));
            Typed(w') && LiveIn(w', app, network) == Pushed(LiveIn(w, app, network), Rtsp, next)
  {
  }

  lemma WebrtcShows(w: World, app: AppConfig, network: bool, next: AppConfig)
    requires Typed(w) && P(WebrtcService) in w.graph.objs
    ensures var live := LiveIn(w, app, network);
            var w' := Retuned(w, WebrtcService, WebrtcPayload(WebrtcOptionsFor(next, live.network)));
            Typed(w') && LiveIn(w', app, network) == Pushed(live, Webrtc, next)
  {
  }

  lemma OnvifShows(w: World, app: AppConfig, network: bool, next: AppConfig)
    requires Typed(w) && P(OnvifService) in w.graph.objs
    ensures var w' := Retuned(w, OnvifService, OnvifPayload(BuildOnvifOptions(next)));
            Typed(w') && LiveIn(w', app, network) == Pushed(LiveIn(w, app, network), Onvif, next)
  {
  }

  lemma VerifyByNext(live: Live, scope: Section, value: Json, next: Option<AppConfig>)
    requires NextConfig(live, scope, value) == next
    ensures VerifyOutcome(live, scope, value) == if next.Some? && GuardAccepts(live.app, next.value, scope) then Ok else Verify
  {
  }

  /** The service of the scope is asked to follow, if the detector of that scope finds a difference. */
  function Following(live: Live, scope: Section, next: AppConfig, accept: bool): (ConfigCode, Live) {
    if !Changed(scope, live.app, next) then (Ok, live)
    else if Present(live, scope) && accept then (Ok, Pushed(live, scope, next))
    else (Apply, live)
  }

  ghost function Judged(live: Live, scope: Section, next: AppConfig, accept: bool): (ConfigCode, Live) {
    if GuardAccepts(live.app, next, scope) then Following(live, scope, next, accept) else (Verify, live)
  }

  lemma DecideByStages(live: Live, scope: Section, next: AppConfig, accept: bool)
    ensures Decide(live, scope, Some(next), accept) ==
            var (code, followed) := Judged(live, scope, next, accept);
            (code, if code == Ok then followed.(app := next) else followed)
  {
  }

  lemma StoringStaysUp(w: World, section: Section, value: Json)
    requires w in UP
    ensures NextTable(w, StoreSection(section, value)) in UP
  {
    var w' := NextTable(w, StoreSection(section, value));
    assert StackUp(w');
  }

  lemma AddressesStayUp(w: World, answers: map<string, string>)
    requires w in UP
    ensures NextTable(w, ChangeAddresses(answers)) in UP
  {
    var w' := NextTable(w, ChangeAddresses(answers));
    assert StackUp(w');
  }

  class ProtocolSubsystem {
    const m: Machine
    /** The configuration service and the network service, as raw pointers; null while stopped. */
    var config: Option<nat>
    var network: Option<nat>
    var appConfig: AppConfig
    var started: bool

    /** The raw pointers do not dangle. */
    ghost predicate Linked()
      reads `config, `network, m
    {
      && m.Valid() && m.rules == RULES
      && (config.Some? ==> Alive(m.w.graph, F(ConfigStore), config.value))
      && (network.Some? ==> Alive(m.w.graph, D(NetworkService), network.value))
      && config.Some? == network.Some?
    }

    ghost predicate Valid()
      reads `config, `network, `started, m
    {
      && Linked() && started == config.Some?
      && m.w in if started then UP else DOWN
    }

    /** What the running services and the stored sections look like. */
    function View(): Live
      requires Typed(m.w)
      reads `appConfig, `network, m
    {
      LiveIn(m.w, appConfig, network.Some?)
    }

    constructor (m: Machine)
      requires m.Valid() && m.rules == RULES && m.w in DOWN
      ensures Valid() && this.m == m && !started
    {
      this.m := m;
      config, network := None, None;
      appConfig := DEFAULT_CONFIG;
      started := false;
    }

    // ----- Configuration scopes -----

    /**
      All or nothing: either all four scopes are attached, or the scopes are what they were.  The
      configuration service refuses a scope that is attached already.
     */
    method InstallConfigUpdateScopes(fate: Fate) returns (ok: bool)
      requires Linked()
      modifies m
      ensures Linked() && old(m.trace) <= m.trace
      ensures ok == (config.Some? && ScopesAttach(|SCOPES|, old(m.w).scopes, fate))
      ensures m.w == old(m.w).(scopes := if ok then old(m.w).scopes + ScopeSet(|SCOPES|) else old(m.w).scopes)
    {
      if config.None? {
        return false;
      }
      for i := 0 to |SCOPES|
        invariant Linked() && old(m.trace) <= m.trace
        invariant m.w == old(m.w).(scopes := old(m.w).scopes + ScopeSet(i))
        invariant ScopesAttach(i, old(m.w).scopes, fate)
      {
        var scope := SCOPES[i];
        assert ScopeSet(i + 1) == ScopeSet(i) + {scope};
        assert scope !in ScopeSet(i);
        if scope in m.w.scopes || AddsScope(scope) !in fate {
          Rollback(i, old(m.w).scopes);
          return false;
        }
        m.Tell(AttachScope(scope));
      }
      return true;
    }

    /** Detaches the scopes attached so far, in order. */
    method Rollback(n: nat, ghost before: set<Section>)
      requires Linked() && n < |SCOPES|
      requires m.w.scopes == before + ScopeSet(n) && before !! ScopeSet(n)
      modifies m
      ensures Linked() && old(m.trace) <= m.trace
      ensures m.w == old(m.w).(scopes := before)
    {
      var i := 0;
      while SCOPES[i] != SCOPES[n]
        invariant 0 <= i <= n
        invariant Linked() && old(m.trace) <= m.trace
        invariant m.w == old(m.w).(scopes := before + (ScopeSet(n) - ScopeSet(i)))
        decreases n - i
      {
        DetachedOne(before, n, i);
        m.Tell(DetachScope(SCOPES[i]));
        i := i + 1;
      }
      assert i == n;
    }

    method RemoveConfigUpdateScopes()
      requires Linked()
      modifies this, m
      ensures Linked() && old(m.trace) <= m.trace && config.None?
      ensures m.w == old(m.w).(scopes := if old(config).Some? then old(m.w).scopes - ScopeSet(|SCOPES|) else old(m.w).scopes)
      ensures appConfig == old(appConfig) && started == old(started)
    {
      if config.None? {
        return;
      }
      m.Tell(DetachScope(Http));
      m.Tell(DetachScope(Rtsp));
      m.Tell(DetachScope(Webrtc));
      m.Tell(DetachScope(Onvif));
      AllScopes();
      config := None;
      network := None;
    }

    // ----- Stop -----

    /** Calls Stop on an object, if it is there. */
    method HaltIf(kind: Kind)
      requires m.Valid() && Idle(m.rules, m.w, kind)
      modifies m
      ensures m.Valid() && old(m.trace) <= m.trace && m.w == HaltedIf(old(m.w), kind)
    {
      if kind in m.w.graph.objs {
        m.Halt(kind);
      }
    }

    method Unlist()
      requires m.Valid()
      modifies m
      ensures m.Valid() && old(m.trace) <= m.trace && m.w == Unlisted(old(m.w))
    {
      m.Tell(Unregister(P(HttpService)));
      m.Tell(Unregister(P(OnvifService)));
      m.Tell(Unregister(P(WebrtcService)));
      m.Tell(Unregister(P(RtspService)));
      m.Tell(Unregister(P(NetStat)));
    }

    method HaltServices()
      requires m.Valid() && m.rules == RULES && forall kind | kind in m.w.services :: !ProtocolService(kind)
      modifies m
      ensures m.Valid() && old(m.trace) <= m.trace && m.w == ServicesHalted(old(m.w))
      ensures HaltedIf(old(m.w), P(NetStat)) in m.trace
    {
      HaltMandatory();
      HaltOptional();
    }

    method HaltMandatory()
      requires m.Valid() && m.rules == RULES && P(NetStat) !in m.w.services && P(HttpService) !in m.w.services
      modifies m
      ensures m.Valid() && old(m.trace) <= m.trace
      ensures m.w == HaltedIf(HaltedIf(old(m.w), P(NetStat)), P(HttpService))
      ensures m.w.services == old(m.w).services && !Running(m.w.graph, P(HttpService))
      ensures HaltedIf(old(m.w), P(NetStat)) in m.trace
    {
      ServiceIdle(m.rules, m.w, NetStat);
      HaltIf(P(NetStat));
      assert m.trace[|m.trace| - 1] == m.w;
      ServiceIdle(m.rules, m.w, HttpService);
      HaltIf(P(HttpService));
      HaltedIfAt(HaltedIf(old(m.w), P(NetStat)), P(HttpService), P(HttpService));
    }

    method HaltOptional()
      requires m.Valid() && m.rules == RULES && !Running(m.w.graph, P(HttpService))
      requires forall kind | kind in m.w.services :: !ProtocolService(kind)
      modifies m
      ensures m.Valid() && old(m.trace) <= m.trace
      ensures m.w == HaltedIf(HaltedIf(HaltedIf(old(m.w), P(OnvifService)), P(WebrtcService)), P(RtspService))
    {
      ServiceIdle(m.rules, m.w, OnvifService);
      HaltIf(P(OnvifService));
      HaltSources();
    }

    /** WebRTC and RTSP, which ONVIF and HTTP read from. */
    method HaltSources()
      requires m.Valid() && m.rules == RULES && P(WebrtcService) !in m.w.services && P(RtspService) !in m.w.services
      requires !Running(m.w.graph, P(HttpService)) && !Running(m.w.graph, P(OnvifService))
      modifies m
      ensures m.Valid() && old(m.trace) <= m.trace
      ensures m.w == HaltedIf(HaltedIf(old(m.w), P(WebrtcService)), P(RtspService))
    {
      ServiceIdle(m.rules, m.w, WebrtcService);
      HaltIf(P(WebrtcService));
      ServiceIdle(m.rules, m.w, RtspService);
      HaltIf(P(RtspService));
    }

    /** Stops and destroys the socket layer under the stopped services. */
    method DropSockets()
      requires m.Valid() && m.rules == RULES && Quiet(m.w) && P(SocketIo) !in m.w.services
      modifies m
      ensures m.Valid() && old(m.trace) <= m.trace && m.w == SocketsDropped(old(m.w))
    {
      if P(SocketIo) in m.w.graph.objs {
        DropLiveSockets();
      } else {
        m.NowSafe();
        NoSocketsToDrop(m.w);
      }
    }

    method DropLiveSockets()
      requires m.Valid() && m.rules == RULES && Quiet(m.w) && P(SocketIo) !in m.w.services && P(SocketIo) in m.w.graph.objs
      modifies m
      ensures m.Valid() && old(m.trace) <= m.trace && m.w == SocketsDropped(old(m.w))
    {
      SocketsIdle(m.rules, m.w);
      DropPlan(m.rules, m.w);
      m.Halt(P(SocketIo));
      m.Tell(Uninstall(P(SocketIo)));
      m.Act(Destroy(P(SocketIo)));
    }

    method ResetServices()
      requires m.Valid() && m.rules == RULES && Quiet(m.w)
      requires forall kind | kind in m.w.services :: !ProtocolService(kind)
      modifies m
      ensures m.Valid() && old(m.trace) <= m.trace && m.w == ServicesReset(old(m.w))
    {
      m.NowSafe();
      TablesKeepToKinds(m.w);
      ServiceUnneeded(m.rules, m.w, HttpService);
      m.Reset(P(HttpService));
      ServiceUnneeded(m.rules, m.w, NetStat);
      m.Reset(P(NetStat));
      ServiceUnneeded(m.rules, m.w, OnvifService);
      m.Reset(P(OnvifService));
      ServiceUnneeded(m.rules, m.w, WebrtcService);
      m.Reset(P(WebrtcService));
      ServiceUnneeded(m.rules, m.w, RtspService);
      m.Reset(P(RtspService));
    }

    /** Takes the services out of the registry, then stops them. */
    method SilenceServices()
      requires m.Valid() && m.rules == RULES
      modifies m
      ensures m.Valid() && old(m.trace) <= m.trace && m.w == ServicesHalted(Unlisted(old(m.w)))
      ensures StatisticsHalted(old(m.w)) in m.trace
    {
      m.NowSafe();
      UnlistedIsEmpty(m.w);
      Unlist();
      HaltServices();
    }

    method DropTransport()
      requires m.Valid() && m.rules == RULES && Quiet(m.w) && m.w.services == map[]
      modifies m
      ensures m.Valid() && old(m.trace) <= m.trace
      ensures m.w == HaltedIf(SocketsDropped(old(m.w)), P(CallbackLoop))
      ensures SocketsDropped(old(m.w)) in m.trace
    {
      DropSockets();
      assert m.trace[|m.trace| - 1] == m.w;
      LoopIdle(m.rules, m.w);
      HaltIf(P(CallbackLoop));
    }

    /** Stops the services, and destroys the socket layer under them. */
    method SilenceAndDrop()
      requires m.Valid() && m.rules == RULES
      modifies m
      ensures m.Valid() && old(m.trace) <= m.trace
      ensures m.w == HaltedIf(HalfTornDown(old(m.w)), P(CallbackLoop)) && m.w.services == map[] && Quiet(m.w)
      ensures StatisticsHalted(old(m.w)) in m.trace && HalfTornDown(old(m.w)) in m.trace
    {
      m.NowSafe();
      SilencedIsQuiet(m.w);
      QuietAfterDrop(ServicesHalted(Unlisted(m.w)));
      SilenceServices();
      DropTransport();
    }

    /**
      Stops everything.  On the way there is a moment at which the statistics have stopped and HTTP, which
      reads them, has not, and one at which the socket layer is gone and the stopped services, which still
      point to it, are not.
     */
    method StopServices()
      requires m.Valid() && m.rules == RULES
      modifies m
      ensures m.Valid() && old(m.trace) <= m.trace && m.w == ProtocolStopped(old(m.w))
      ensures StatisticsHalted(old(m.w)) in m.trace && HalfTornDown(old(m.w)) in m.trace
    {
      TornDownIsStopped(m.w);
      SilenceAndDrop();
      ResetServices();
      m.Tell(ClearServices);
    }

    /** From whatever point a start has reached: nothing of the protocol layer is left but the stopped loop. */
    method Stop()
      requires Linked()
      modifies this, m
      ensures Linked() && !started && config.None? && old(m.trace) <= m.trace && appConfig == old(appConfig)
      ensures m.w == ProtocolStopped(old(m.w)).(scopes :=
                       if old(config).Some? then old(m.w).scopes - ScopeSet(|SCOPES|) else old(m.w).scopes)
    {
      RemoveConfigUpdateScopes();
      StopServices();
      started := false;
    }

    // ----- Start -----

    /** Makes the callback loop if there is none yet, and starts it. */
    method StartLoop(fate: Fate) returns (ok: bool)
      requires m.Valid() && m.rules == RULES
      modifies m
      ensures m.Valid() && old(m.trace) <= m.trace
      ensures ok == (Starts(P(CallbackLoop)) in fate)
      ensures m.w == if ok then LoopStarted(old(m.w)) else LoopMade(old(m.w))
    {
      if P(CallbackLoop) !in m.w.graph.objs {
        NoNeeds(m.rules, m.w, P(CallbackLoop));
        MayMake(m.rules, m.w, P(CallbackLoop), map[], NoPayload);
        m.Act(Create(P(CallbackLoop), map[], NoPayload));
      }
      ok := Starts(P(CallbackLoop)) in fate;
      if ok {
        m.NowSafe();
        LoopMayStart(m.rules, m.w);
        m.Act(Op.Start(P(CallbackLoop)));
      }
    }

    method StartSockets(fate: Fate) returns (ok: bool)
      requires m.Valid() && m.rules == RULES && P(SocketIo) !in m.w.graph.objs
      modifies m
      ensures m.Valid() && old(m.trace) <= m.trace
      ensures ok == SocketsStart(fate)
      ensures m.w == SocketsStarted(old(m.w), fate)
    {
      ok := StartLoop(fate);
      if ok {
        ok := StartSocketLayer(fate);
      }
      ok := ok && HasLoop(fate, RtspService) && HasLoop(fate, WebrtcService) && HasLoop(fate, OnvifService) &&
        HasLoop(fate, HttpService);
    }

    method StartSocketLayer(fate: Fate) returns (ok: bool)
      requires m.Valid() && m.rules == RULES && P(SocketIo) !in m.w.graph.objs && Running(m.w.graph, P(CallbackLoop))
      modifies m
      ensures m.Valid() && old(m.trace) <= m.trace
      ensures ok == (ComesUp(fate, SocketIo) && Installs(P(SocketIo)) in fate)
      ensures m.w == SocketLayerStarted(old(m.w), fate)
    {
      SocketReady(m.rules, m.w);
      ok := m.Bring(P(SocketIo), SocketRefs(m.w), NoPayload, fate);
      ok := ok && Installs(P(SocketIo)) in fate;
      if ok {
        m.Tell(Install(P(SocketIo)));
      }
    }

    /** Stops, if need be, and destroys a service that is not registered. */
    method LetGo(kind: ProtocolKind)
      requires m.Valid() && m.rules == RULES && IsService(kind) && Vacant(m.w, kind)
      modifies m
      ensures m.Valid() && old(m.trace) <= m.trace && m.w == Retired(old(m.w), P(kind))
    {
      m.NowSafe();
      TablesKeepToKinds(m.w);
      ServiceUnneeded(m.rules, m.w, kind);
      m.Retire(P(kind));
    }

    /** Brings a service up, or lets it go again. */
    method BringOrDrop(kind: ProtocolKind, refs: map<Kind, nat>, payload: Payload, fate: Fate) returns (up: bool)
      requires m.Valid() && m.rules == RULES && RefsReady(m.rules, m.w, P(kind), refs)
      requires IsService(kind) && kind != HttpService && Vacant(m.w, kind)
      modifies m
      ensures m.Valid() && old(m.trace) <= m.trace
      ensures up == ComesUp(fate, kind) && m.w == BroughtOrDropped(old(m.w), kind, refs, payload, fate)
    {
      BroughtVacant(m.w, kind, refs, payload, fate);
      up := m.Bring(P(kind), refs, payload, fate);
      LetGoUnless(up, kind);
    }

    method LetGoUnless(up: bool, kind: ProtocolKind)
      requires m.Valid() && m.rules == RULES && IsService(kind) && Vacant(m.w, kind)
      modifies m
      ensures m.Valid() && old(m.trace) <= m.trace
      ensures m.w == if up then old(m.w) else Retired(old(m.w), P(kind))
    {
      if !up {
        LetGo(kind);
      }
    }

    /** Registers a service that runs, if the registry takes it. */
    method ListIf(kind: ProtocolKind, fate: Fate) returns (ok: bool)
      requires m.Valid() && m.rules == RULES && IsService(kind) && Running(m.w.graph, P(kind))
      requires kind == HttpService ==> P(NetStat) in m.w.services
      modifies m
      ensures m.Valid() && old(m.trace) <= m.trace
      ensures ok == (Registers(P(kind)) in fate) && m.w == RegisteredIf(old(m.w), kind, fate)
    {
      ok := Registers(P(kind)) in fate;
      if ok {
        m.Tell(Register(P(kind)));
      }
    }

    method TryService(kind: ProtocolKind, refs: map<Kind, nat>, payload: Payload, fate: Fate) returns (ok: bool)
      requires m.Valid() && m.rules == RULES && RefsReady(m.rules, m.w, P(kind), refs)
      requires IsService(kind) && kind != HttpService && Vacant(m.w, kind)
      modifies m
      ensures m.Valid() && old(m.trace) <= m.trace
      ensures ok == OptionalStarts(fate, kind)
      ensures m.w == OptionalTried(old(m.w), kind, refs, payload, fate)
    {
      if ComesUp(fate, kind) {
        CameUpAs(m.w, kind, refs, payload, fate);
      }
      var up := BringOrDrop(kind, refs, payload, fate);
      ok := true;
      if up {
        ok := ListIf(kind, fate);
      }
    }

    /** An optional service that fails to come up is let go, and the start continues without it. */
    method TryOptional(kind: ProtocolKind, payload: Payload, fate: Fate, ghost lineup: Lineup) returns (ok: bool)
      requires m.Valid() && m.rules == RULES && m.w in Fielding(lineup) && kind !in lineup && HttpService !in lineup
      requires kind == RtspService || kind == WebrtcService || kind == OnvifService
      requires kind == RtspService ==> OnvifService !in lineup
      modifies m
      ensures m.Valid() && old(m.trace) <= m.trace
      ensures ok == OptionalStarts(fate, kind)
      ensures SameRest(old(m.w), m.w)
      ensures ok ==> m.w in Fielding(AddIf(ComesUp(fate, kind), lineup, kind, payload))
    {
      ServiceFree(m.rules, m.w, lineup, kind);
      FieldsAt(m.w, lineup, OnvifService);
      var refs := ServiceRefs(m.w, kind);
      OptionalFrame(m.w, kind, refs, payload, fate);
      if OptionalStarts(fate, kind) {
        OptionalFields(m.w, lineup, kind, refs, payload, fate);
      }
      ok := TryService(kind, refs, payload, fate);
    }

    /** A mandatory service must come up and be registered. */
    method TryMandatory(kind: ProtocolKind, payload: Payload, fate: Fate, ghost lineup: Lineup) returns (ok: bool)
      requires m.Valid() && m.rules == RULES && m.w in Fielding(lineup) && kind !in lineup && HttpService !in lineup
      requires kind == NetStat || (kind == HttpService && NetStat in lineup)
      modifies m
      ensures m.Valid() && old(m.trace) <= m.trace
      ensures ok == MandatoryStarts(fate, kind)
      ensures SameRest(old(m.w), m.w)
      ensures ok ==> m.w in Fielding(lineup[kind := payload])
    {
      ServiceFree(m.rules, m.w, lineup, kind);
      var refs := ServiceRefs(m.w, kind);
      MandatoryFrame(m.w, kind, refs, payload, fate);
      if MandatoryStarts(fate, kind) {
        MandatoryFields(m.w, lineup, kind, refs, payload, fate);
      }
      ok := BringService(kind, refs, payload, fate);
    }

    method BringService(kind: ProtocolKind, refs: map<Kind, nat>, payload: Payload, fate: Fate) returns (ok: bool)
      requires m.Valid() && m.rules == RULES && RefsReady(m.rules, m.w, P(kind), refs)
      requires kind == NetStat || (kind == HttpService && P(NetStat) in m.w.services)
      modifies m
      ensures m.Valid() && old(m.trace) <= m.trace
      ensures ok == MandatoryStarts(fate, kind)
      ensures m.w == MandatoryTried(old(m.w), kind, refs, payload, fate)
    {
      ok := m.Bring(P(kind), refs, payload, fate);
      if !ok {
        return;
      }
      ok := ListIf(kind, fate);
    }

    /** The three optional services. */
    method StartOptional(offers: Offers, fate: Fate) returns (ok: bool)
      requires m.Valid() && m.rules == RULES && m.w in Fielding(map[])
      modifies m
      ensures m.Valid() && old(m.trace) <= m.trace && SameRest(old(m.w), m.w)
      ensures ok == (OptionalStarts(fate, RtspService) && OptionalStarts(fate, WebrtcService) && OptionalStarts(fate, OnvifService))
      ensures ok ==> m.w in Fielding(OptionalLineup(offers, fate))
    {
      ghost var l1 := AddIf(ComesUp(fate, RtspService), map[], RtspService, offers.rtsp);
      ok := TryOptional(RtspService, offers.rtsp, fate, map[]);
      if ok {
        ok := StartRest(offers, fate, l1);
      }
    }

    method StartRest(offers: Offers, fate: Fate, ghost l1: Lineup) returns (ok: bool)
      requires m.Valid() && m.rules == RULES && m.w in Fielding(l1) && l1.Keys <= {RtspService}
      modifies m
      ensures m.Valid() && old(m.trace) <= m.trace && SameRest(old(m.w), m.w)
      ensures ok == (OptionalStarts(fate, WebrtcService) && OptionalStarts(fate, OnvifService))
      ensures ok ==> m.w in Fielding(
        AddIf(ComesUp(fate, OnvifService), AddIf(ComesUp(fate, WebrtcService), l1, WebrtcService, offers.webrtc),
              OnvifService, offers.onvif))
    {
      ok := TryOptional(WebrtcService, offers.webrtc, fate, l1);
      if !ok {
        return;
      }
      ghost var l2 := AddIf(ComesUp(fate, WebrtcService), l1, WebrtcService, offers.webrtc);
      ok := TryOptional(OnvifService, offers.onvif, fate, l2);
    }

    /** Network statistics, and then HTTP, which reads them. */
    method StartMandatory(http: Payload, fate: Fate, ghost lineup: Lineup) returns (ok: bool)
      requires m.Valid() && m.rules == RULES && m.w in Fielding(lineup) && NetStat !in lineup && HttpService !in lineup
      modifies m
      ensures m.Valid() && old(m.trace) <= m.trace && SameRest(old(m.w), m.w)
      ensures ok == (MandatoryStarts(fate, NetStat) && MandatoryStarts(fate, HttpService))
      ensures ok ==> m.w in Fielding(lineup[NetStat := NoPayload][HttpService := http])
    {
      ok := TryMandatory(NetStat, NoPayload, fate, lineup);
      if !ok {
        return;
      }
      ok := TryMandatory(HttpService, http, fate, lineup[NetStat := NoPayload]);
    }

    /** All five services, in order. */
    method StartServices(offers: Offers, fate: Fate) returns (ok: bool)
      requires m.Valid() && m.rules == RULES && m.w in Fielding(map[])
      modifies m
      ensures m.Valid() && old(m.trace) <= m.trace && SameRest(old(m.w), m.w)
      ensures ok == ServicesStart(fate)
      ensures ok ==> m.w in Fielding(StartingLineup(offers, fate))
    {
      ok := StartOptional(offers, fate);
      if ok {
        ok := StartMandatory(offers.http, fate, OptionalLineup(offers, fate));
      }
    }

    /** The services of a stack that is up, with the options built from `app`. */
    method BringUp(app: AppConfig, fate: Fate) returns (ok: bool)
      requires m.Valid() && m.rules == RULES && m.w in STACKED && m.w in DOWN
      modifies m
      ensures m.Valid() && old(m.trace) <= m.trace
      ensures ok == (SocketsStart(fate) && ServicesStart(fate))
      ensures m.w.store == old(m.w).store && m.w.answers == old(m.w).answers && m.w.scopes == old(m.w).scopes
      ensures ok ==> m.w in Fielding(StartingLineup(OffersFor(app, m.w.answers), fate))
    {
      SocketsFrame(m.w, fate);
      if SocketsStart(fate) {
        SocketsField(m.w, fate);
      }
      ok := StartSockets(fate);
      if ok {
        var webrtc := BuildWebrtcOptions(app, Some(m.w.answers));
        var offers := Offers(RtspPayload(BuildRtspOptions(app)), WebrtcPayload(webrtc),
                             OnvifPayload(BuildOnvifOptions(app)), HttpPayload(BuildHttpOptions(app)));
        ok := StartServices(offers, fate);
      }
    }

    /** Gives up: nothing is left above the stack but the stopped loop, and the raw pointers are null. */
    method GiveUp() returns (ok: bool)
      requires Linked()
      modifies this, m
      ensures Valid() && !ok && !started && old(m.trace) <= m.trace && appConfig == old(appConfig)
      ensures NothingAbove(2, m.w) && m.w.store == old(m.w).store && m.w.answers == old(m.w).answers
      ensures m.w.scopes == if old(config).Some? then old(m.w).scopes - ScopeSet(|SCOPES|) else old(m.w).scopes
    {
      StoppedIsDown(m.w);
      Stop();
      ok := false;
    }

    /** Keeps the raw pointers and the configuration. */
    method Keep(app: AppConfig)
      requires Linked() && config.None? && m.w in STANDING
      modifies `config, `network, `appConfig
      ensures Linked() && config.Some? && appConfig == app
    {
      StandingHasOwners(m.w);
      config := Some(m.w.graph.objs[F(ConfigStore)].id);
      network := Some(m.w.graph.objs[D(NetworkService)].id);
      appConfig := app;
    }

    /** With every service in place: keeps what updates need, and attaches the scopes. */
    method Attach(app: AppConfig, fate: Fate) returns (ok: bool)
      requires Linked() && config.None? && m.w in STANDING
      modifies this, m
      ensures Linked() && config.Some? && appConfig == app && started == old(started) && old(m.trace) <= m.trace
      ensures ok == ScopesAttach(|SCOPES|, old(m.w).scopes, fate)
      ensures m.w == old(m.w).(scopes := if ok then old(m.w).scopes + ScopeSet(|SCOPES|) else old(m.w).scopes)
    {
      Keep(app);
      ok := InstallConfigUpdateScopes(fate);
    }

    /** The start itself; `config` tells how far it got. */
    method Raise(app: AppConfig, fate: Fate) returns (ok: bool)
      requires Linked() && config.None? && m.w in STACKED && m.w in DOWN
      modifies this, m
      ensures Linked() && started == old(started) && old(m.trace) <= m.trace
      ensures m.w.store == old(m.w).store && m.w.answers == old(m.w).answers
      ensures config.Some? == (SocketsStart(fate) && ServicesStart(fate)) && (ok ==> config.Some?)
      ensures ok == ProtocolStarts(old(m.w).scopes, fate)
      ensures ok ==> appConfig == app && m.w in Fielding(StartingLineup(OffersFor(app, m.w.answers), fate))
      ensures m.w.scopes == if ok then old(m.w).scopes + ScopeSet(|SCOPES|) else old(m.w).scopes
    {
      ok := BringUp(app, fate);
      if ok {
        FieldingIgnoresScopes(m.w, m.w.scopes + ScopeSet(|SCOPES|), StartingLineup(OffersFor(app, m.w.answers), fate));
        ok := Attach(app, fate);
      }
    }

    /**
      Starts on a stack that is up.  It succeeds exactly when the socket layer, the two mandatory services,
      the registration of every service that comes up, and the four scopes all succeed; an optional service
      may stay away.  Otherwise it stops again: nothing is retained but the stopped loop, and none of the
      four scopes is left attached if it had got as far as attaching them.
     */
    method Start(app: AppConfig, fate: Fate) returns (ok: bool)
      requires Valid() && (!started ==> m.w in STACKED)
      modifies this, m
      ensures Valid() && started == ok && old(m.trace) <= m.trace
      ensures ok == (old(started) || ProtocolStarts(old(m.w).scopes, fate))
      ensures old(started) ==> m.w == old(m.w) && appConfig == old(appConfig)
      ensures m.w.store == old(m.w).store && m.w.answers == old(m.w).answers
      ensures !old(started) && ok ==> View() == Fresh(m.w.store, app, Some(m.w.answers), StartedFrom(fate))
      ensures !ok ==> NothingAbove(2, m.w)
      ensures !old(started) ==> m.w.scopes == ScopesAfterStart(old(m.w).scopes, fate)
    {
      if started {
        return true;
      }
      ok := Raise(app, fate);
      if !ok {
        ok := GiveUp();
        return;
      }
      Settle(app, fate);
    }

    /** Nothing more to do than to say that it is done. */
    method Settle(app: AppConfig, fate: Fate)
      requires Linked() && config.Some? && appConfig == app && ScopeSet(|SCOPES|) <= m.w.scopes
      requires m.w in Fielding(StartingLineup(OffersFor(app, m.w.answers), fate))
      modifies `started
      ensures Valid() && started
      ensures View() == Fresh(m.w.store, app, Some(m.w.answers), StartedFrom(fate))
    {
      FieldedIsUp(m.w, app, fate);
      FreshLive(m.w, app, fate);
      started := true;
    }

    // ----- Configuration updates -----

    method BuildNextAppConfig(scope: Section, value: Json) returns (ok: bool, next: AppConfig)
      ensures ok == (config.Some? && Load(NextRoot(m.w.store, scope, value)).Some?)
      ensures ok ==> Load(NextRoot(m.w.store, scope, value)) == Some(next)
    {
      next := DEFAULT_CONFIG;
      if config.None? {
        return false, next;
      }
      var root := BuildNextRoot(m.w.store, scope, value);
      ok, next := LoadAppConfigFromRoot(root, next);
    }

    /** Decides on a change without making it. */
    method VerifyProtocolConfigChange(scope: Section, now: Json) returns (code: ConfigCode, error: Option<ConfigError>)
      requires Valid() && started
      ensures code == VerifyOutcome(View(), scope, now) && (code == Ok <==> error.None?)
      ensures NextConfig(View(), scope, now).None? ==> error == Some(ConfigError("", "invalid app config"))
      ensures error.Some? && NextConfig(View(), scope, now).Some? && ProtocolScope(scope) ==>
                exists field: RestartField ::
                  && HomeOf(field) == scope && ReportedName(field) == error.value.field
                  && ValueIn(field, NextConfig(View(), scope, now).value) != ValueIn(field, appConfig)
    {
      var ok, next := BuildNextAppConfig(scope, now);
      VerifyByNext(View(), scope, now, if ok then Some(next) else None);
      if !ok {
        return Verify, Some(ConfigError("", "invalid app config"));
      }
      code, error := VerifyProtocolConfigChangeScope(appConfig, next, scope);
    }

    /** Offers new options to a service that is there; `accept` is its answer. */
    method Offer(kind: ProtocolKind, payload: Payload, accept: bool) returns (taken: bool)
      requires Valid() && started && Optional(kind) && P(kind) in m.w.graph.objs && Fits(kind, payload)
      modifies m
      ensures Valid() && old(m.trace) <= m.trace && taken == accept
      ensures m.w == if accept then Retuned(old(m.w), kind, payload) else old(m.w)
    {
      taken := accept;
      if taken {
        RetunedStaysUp(m.rules, m.w, kind, payload);
        m.Act(TakeOptions(P(kind), payload));
      }
    }

    /** Gives a service new options, which lead to the state `after`; `message` goes with a refusal. */
    method Push(kind: ProtocolKind, payload: Payload, accept: bool, message: string, ghost after: Live)
      returns (code: ConfigCode, error: Option<ConfigError>)
      requires Valid() && started && Optional(kind) && P(kind) in m.w.graph.objs && Fits(kind, payload)
      requires Typed(Retuned(m.w, kind, payload))
      requires LiveIn(Retuned(m.w, kind, payload), appConfig, network.Some?) == after
      modifies m
      ensures Valid() && old(m.trace) <= m.trace
      ensures code == (if accept then Ok else Apply) && error == if accept then None else Some(ConfigError("", message))
      ensures View() == if accept then after else old(View())
      ensures !accept ==> m.w == old(m.w)
    {
      var taken := Offer(kind, payload, accept);
      code := if taken then Ok else Apply;
      error := if taken then None else Some(ConfigError("", message));
    }

    method ApplyRtspConfigChange(next: AppConfig, accept: bool) returns (code: ConfigCode, error: Option<ConfigError>)
      requires Valid() && started
      modifies m
      ensures Valid() && old(m.trace) <= m.trace
      ensures code == (if old(View()).rtsp.Some? && accept then Ok else Apply) && (code == Ok <==> error.None?)
      ensures View() == if code == Ok then Pushed(old(View()), Rtsp, next) else old(View())
      ensures code != Ok ==> m.w == old(m.w)
    {
      if P(RtspService) !in m.w.graph.objs {
        return Apply, Some(ConfigError("", "rtsp unavailable"));
      }
      RtspShows(m.w, appConfig, network.Some?, next);
      code, error := Push(RtspService, RtspPayload(BuildRtspOptions(next)), accept, "apply rtsp config failed",
                          Pushed(View(), Rtsp, next));
    }

    method ApplyWebrtcConfigChange(next: AppConfig, accept: bool) returns (code: ConfigCode, error: Option<ConfigError>)
      requires Valid() && started
      modifies m
      ensures Valid() && old(m.trace) <= m.trace
      ensures code == (if old(View()).webrtc.Some? && accept then Ok else Apply) && (code == Ok <==> error.None?)
      ensures View() == if code == Ok then Pushed(old(View()), Webrtc, next) else old(View())
      ensures code != Ok ==> m.w == old(m.w)
    {
      if P(WebrtcService) !in m.w.graph.objs {
        return Apply, Some(ConfigError("", "webrtc unavailable"));
      }
      var options := BuildWebrtcOptions(next, if network.Some? then Some(m.w.answers) else None);
      WebrtcShows(m.w, appConfig, network.Some?, next);
      code, error := Push(WebrtcService, WebrtcPayload(options), accept, "apply webrtc config failed",
                          Pushed(View(), Webrtc, next));
    }

    method ApplyOnvifConfigChange(next: AppConfig, accept: bool) returns (code: ConfigCode, error: Option<ConfigError>)
      requires Valid() && started
      modifies m
      ensures Valid() && old(m.trace) <= m.trace
      ensures code == (if old(View()).onvif.Some? && accept then Ok else Apply) && (code == Ok <==> error.None?)
      ensures View() == if code == Ok then Pushed(old(View()), Onvif, next) else old(View())
      ensures code != Ok ==> m.w == old(m.w)
    {
      if P(OnvifService) !in m.w.graph.objs {
        return Apply, Some(ConfigError("", "onvif unavailable"));
      }
      OnvifShows(m.w, appConfig, network.Some?, next);
      code, error := Push(OnvifService, OnvifPayload(BuildOnvifOptions(next)), accept, "apply onvif config failed",
                          Pushed(View(), Onvif, next));
    }

    /** The change detector of a scope. */
    method IsChanged(scope: Section, next: AppConfig) returns (changed: bool)
      ensures changed == Changed(scope, appConfig, next)
    {
      if scope == Rtsp {
        changed := RtspChanged(appConfig, next);
      } else if scope == Webrtc {
        changed := IsWebrtcConfigChanged(appConfig, next);
      } else if scope == Onvif {
        changed := OnvifChanged(appConfig, next);
      } else {
        changed := false;
      }
    }

    /** Gives the service of a scope its new options, if the detector of that scope finds a difference. */
    method ApplyDifference(scope: Section, next: AppConfig, accept: bool)
      returns (code: ConfigCode, error: Option<ConfigError>)
      requires Valid() && started && ProtocolScope(scope)
      modifies m
      ensures Valid() && old(m.trace) <= m.trace
      ensures (code, View()) == Following(old(View()), scope, next, accept)
      ensures (code == Ok <==> error.None?) && (code != Ok ==> m.w == old(m.w))
    {
      var changed := IsChanged(scope, next);
      code, error := Ok, None;
      if scope == Rtsp && changed {
        code, error := ApplyRtspConfigChange(next, accept);
      } else if scope == Webrtc && changed {
        code, error := ApplyWebrtcConfigChange(next, accept);
      } else if scope == Onvif && changed {
        code, error := ApplyOnvifConfigChange(next, accept);
      }
    }

    /** Keeps the new configuration, if it was taken. */
    method AdoptIf(taken: bool, next: AppConfig)
      requires Valid() && started
      modifies `appConfig
      ensures Valid() && appConfig == if taken then next else old(appConfig)
      ensures View() == if taken then old(View()).(app := next) else old(View())
    {
      if taken {
        appConfig := next;
      }
    }

    /** The guard of the scope first, then the service. */
    method VerifyAndFollow(scope: Section, next: AppConfig, accept: bool)
      returns (code: ConfigCode, error: Option<ConfigError>)
      requires Valid() && started
      modifies m
      ensures Valid() && old(m.trace) <= m.trace
      ensures (code, View()) == Judged(old(View()), scope, next, accept) && (code == Ok <==> error.None?)
      ensures code != Ok ==> m.w == old(m.w)
    {
      code, error := VerifyProtocolConfigChangeScope(appConfig, next, scope);
      if code == Ok {
        code, error := ApplyDifference(scope, next, accept);
      }
    }

    /** Makes a change to a configuration that has been built. */
    method ApplyNext(scope: Section, next: AppConfig, accept: bool) returns (code: ConfigCode, error: Option<ConfigError>)
      requires Valid() && started
      modifies this, m
      ensures Valid() && started && old(m.trace) <= m.trace
      ensures (code, View()) == Decide(old(View()), scope, Some(next), accept) && (code == Ok <==> error.None?)
      ensures code != Ok ==> m.w == old(m.w) && appConfig == old(appConfig)
    {
      DecideByStages(View(), scope, next, accept);
      code, error := VerifyAndFollow(scope, next, accept);
      AdoptIf(code == Ok, next);
    }

    /** Carries a change out; a refusal leaves the configuration and every service as they were. */
    method ApplyProtocolConfigChange(scope: Section, now: Json, accept: bool)
      returns (code: ConfigCode, error: Option<ConfigError>)
      requires Valid() && started
      modifies this, m
      ensures Valid() && started && old(m.trace) <= m.trace
      ensures (code, View()) == ApplyOutcome(old(View()), scope, now, accept) && (code == Ok <==> error.None?)
      ensures code != Ok ==> m.w == old(m.w) && appConfig == old(appConfig)
    {
      var ok, next := BuildNextAppConfig(scope, now);
      if !ok {
        return Apply, Some(ConfigError("", "invalid app config"));
      }
      code, error := ApplyNext(scope, next, accept);
    }

    /** The configuration service stores a value. */
    method Store(section: Section, value: Json)
      requires Valid() && started
      modifies m
      ensures Valid() && old(m.trace) <= m.trace
      ensures View() == Commit(old(View()), section, value)
    {
      StoringStaysUp(m.w, section, value);
      m.Tell(StoreSection(section, value));
    }

    /** The network interfaces report new addresses; nobody is told. */
    method TakeAddresses(answers: map<string, string>)
      requires Valid() && started
      modifies m
      ensures Valid() && old(m.trace) <= m.trace
      ensures View() == Reconfiguration.Step(old(View()), Readdress(Some(answers)))
    {
      AddressesStayUp(m.w, answers);
      m.Tell(ChangeAddresses(answers));
    }
  }
}
