/**
  Starting, and starting again: when the running application is what a restart would give, and what becomes
  of an override of the static root.
 */
module Restarts {
  import opened Wrappers
  import opened JsonValues
  import opened AppConfiguration
  import opened ConfigLoader
  import opened ConfigService
  import opened ConfigChange
  import opened ProtocolOptions
  import opened Reconfiguration

  /** The state after a start on what the file holds, filled in from the default file. */
  function StartOn(file: Store, defaults: Store, override: string, network: NetworkAnswers, up: Started): Option<Live> {
    Boot(Merge(file, defaults), override, network, up)
  }

  // ----- Theorem: live reconfiguration is a restart -----

  lemma {:induction false} BootedRunAgrees(store: Store, network: NetworkAnswers, up: Started, events: seq<Event>)
    requires Boot(store, "", network, up).Some? && OnlyUpdates(events)
    ensures var live := Run(Boot(store, "", network, up).value, events);
            Agreement(live) && live == Fresh(live.store, live.app, network, up)
  {
    var start := Boot(store, "", network, up).value;
    RunsKeepAgreement(start, events);
    RunKeepsServices(start, events);
  }

  /**
    After any run of updates the running application is in the very state that a restart on the stored
    sections would give it, if and only if the restart fills in nothing that the loader reads: an interface
    name or a public address that the stored section lacks and the default file has, other than the built-in
    one.
   */
  lemma ReconfiguringEqualsRestarting(file: Store, defaults: Store, network: NetworkAnswers, up: Started, events: seq<Event>)
    requires StartOn(file, defaults, "", network, up).Some? && OnlyUpdates(events)
    ensures var live := Run(StartOn(file, defaults, "", network, up).value, events);
            StartOn(live.store, defaults, "", network, up) == Some(live.(store := Merge(live.store, defaults))) <==>
            !FillsIn(live.store, defaults)
  {
    BootedRunAgrees(Merge(file, defaults), network, up, events);
    var live := Run(StartOn(file, defaults, "", network, up).value, events);
    MergeKeepsLoad(live.store, defaults, live.app);
  }

  /** In particular a restart right after a start changes nothing, not even the stored sections. */
  lemma RestartingAtOnce(file: Store, defaults: Store, override: string, network: NetworkAnswers, up: Started)
    requires StartOn(file, defaults, override, network, up).Some?
    ensures var live := StartOn(file, defaults, override, network, up).value;
            StartOn(live.store, defaults, override, network, up) == Some(live)
  {
    MergeTwice(file, defaults);
  }

  // ----- Theorem: what an override of the static root breaks -----

  /** The section with a member changed that the application does not read. */
  function Noted(section: Json): Json
    requires section.JObject?
  {
    var note := OtherKey("note");
    JObject(section.members[note := JBool(!(note in section.members && section.members[note] == JBool(true)))])
  }

  lemma NotedReads(rtsp: Json)
    requires ParseRtsp(rtsp).Some?
    ensures ParseRtsp(Noted(rtsp)) == ParseRtsp(rtsp) && Noted(rtsp) != rtsp
  {
    var note := OtherKey("note");
    assert Noted(rtsp).members[note] != (if note in rtsp.members then rtsp.members[note] else JNull);
    assert forall key | key != note :: SameMember(rtsp, Noted(rtsp), key);
    SameMemberReads(rtsp, Noted(rtsp), Port);
    SameMemberReads(rtsp, Noted(rtsp), AuthRequired);
    assert SameMember(rtsp, Noted(rtsp), MaxSessions);
  }

  lemma NotedSection(store: Store, loaded: AppConfig, value: Json, section: Section)
    requires Load(StoredRoot(store)) == Some(loaded) && ParseRtsp(value) == ParseRtsp(Get(store, Rtsp)) && Known(section)
    ensures section in NextRoot(store, Rtsp, value).members
    ensures ParseSection(section, NextRoot(store, Rtsp, value).members[section]) == Some(ViewOf(section, loaded))
  {
    StoredReads(store, loaded);
    NextRootAt(store, Rtsp, value, section);
    assert ParseSection(section, Get(store, section)) == Some(ViewOf(section, loaded));
  }

  lemma NotedLoads(store: Store, loaded: AppConfig, value: Json)
    requires Load(StoredRoot(store)) == Some(loaded) && ParseRtsp(value) == ParseRtsp(Get(store, Rtsp))
    ensures Load(NextRoot(store, Rtsp, value)) == Some(loaded)
  {
    StoredReads(store, loaded);
    forall section | Known(section)
      ensures section in NextRoot(store, Rtsp, value).members
      ensures ParseSection(section, NextRoot(store, Rtsp, value).members[section]) == Some(ViewOf(section, loaded))
    {
      NotedSection(store, loaded, value, section);
    }
    LoadIffDescribes(NextRoot(store, Rtsp, value), loaded);
  }

  lemma NotedDecides(live: Live, loaded: AppConfig)
    requires live.app == loaded.(staticRoot := live.app.staticRoot)
    ensures GuardAccepts(live.app, loaded, Rtsp)
    ensures Decide(live, Rtsp, Some(loaded), true) == (Ok, live.(app := loaded))
  {
    RtspGuard(live.app, loaded);
  }

  lemma StoredRtsp(store: Store, loaded: AppConfig)
    requires Load(StoredRoot(store)) == Some(loaded)
    ensures Rtsp in store && ParseRtsp(store[Rtsp]).Some? && store[Rtsp].JObject?
  {
    StoredReads(store, loaded);
    assert Known(Rtsp) && ParseSection(Rtsp, Get(store, Rtsp)) == Some(ViewOf(Rtsp, loaded));
  }

  /** Saving the RTSP section with such a change is accepted, asks no service, and reloads the whole configuration. */
  lemma NotedReloads(live: Live, loaded: AppConfig)
    requires Load(StoredRoot(live.store)) == Some(loaded)
    requires live.app == loaded.(staticRoot := live.app.staticRoot)
    ensures Rtsp in live.store && live.store[Rtsp].JObject?
    ensures UpdateStep(live, Rtsp, Noted(live.store[Rtsp]), true) ==
            Commit(live.(app := loaded), Rtsp, Noted(live.store[Rtsp]))
  {
    StoredRtsp(live.store, loaded);
    var value := Noted(live.store[Rtsp]);
    NotedReads(live.store[Rtsp]);
    NotedLoads(live.store, loaded, value);
    NotedDecides(live, loaded);
    DecidedUpdate(live, Rtsp, value, loaded, true, live.(app := loaded));
  }

  /**
    The HTTP service and the configuration agree in every run of updates if and only if the override is
    absent or repeats the stored value.
   */
  lemma OverrideAgreesIffRedundant(store: Store, override: string, network: NetworkAnswers, up: Started)
    requires Boot(store, override, network, up).Some?
    ensures var start := Boot(store, override, network, up).value;
            var loaded := Load(StoredRoot(store)).value;
            (forall events | OnlyUpdates(events) :: HttpAgrees(Run(start, events))) <==>
            override == "" || override == loaded.staticRoot
  {
    var start := Boot(store, override, network, up).value;
    var loaded := Load(StoredRoot(store)).value;
    if override == "" || override == loaded.staticRoot {
      assert start.app == loaded;
      forall events | OnlyUpdates(events)
        ensures HttpAgrees(Run(start, events))
      {
        RunsKeepAgreement(start, events);
      }
    } else {
      NotedReloads(start, loaded);
      var save := Update(Rtsp, Noted(store[Rtsp]), true);
      RunOne(start, save);
      var events := [save];
      assert OnlyUpdates(events) && !HttpAgrees(Run(start, events));
    }
  }

  lemma RunOne(live: Live, event: Event)
    ensures Run(live, [event]) == Step(live, event)
  {
    assert [event][..|[event]| - 1] == [];
    assert Run(live, []) == live;
  }

  // ----- Theorem: every run after a start with an override -----

  /** A start brings near agreement, and full agreement of HTTP, whatever the override. */
  lemma BootIsNear(store: Store, override: string, network: NetworkAnswers, up: Started)
    requires Boot(store, override, network, up).Some?
    ensures var start := Boot(store, override, network, up).value;
            && NearAgreement(start) && HttpAgrees(start) && start.http.Some?
            && (start.app.staticRoot == StoredStaticRoot(start.store) <==>
                 override == "" || override == Load(StoredRoot(store)).value.staticRoot)
  {
    var start := Boot(store, override, network, up).value;
    var loaded := Load(StoredRoot(store)).value;
    var stored := start.(app := loaded);
    SyncAnchors(stored);
    AnchoredRoot(stored);
    assert Rerooted(start) == stored;
    BuiltIsNear(start);
  }


  /** All agree but HTTP, whose static root the configuration has forgotten. */
  ghost predicate OnlyHttpLags(live: Live) {
    && InSync(live) && RtspAgrees(live) && WebrtcAgrees(live) && OnvifAgrees(live)
    && live.http.Some? && live.http.value.staticRoot != live.app.staticRoot
  }

  lemma StaticRootKept(live: Live, scope: Section, value: Json, next: AppConfig)
    requires InSync(live) && NextConfig(live, scope, value) == Some(next) && GuardAccepts(live.app, next, scope)
    ensures next.staticRoot == live.app.staticRoot
  {
    AllOtherViewsKept(live, scope, value, next);
    GuardedFields(live.app, next, scope);
    assert scope != Http ==> ViewOf(Http, next) == ViewOf(Http, live.app);
  }

  lemma UpdateKeepsOnlyHttpLags(live: Live, scope: Section, value: Json, accept: bool)
    requires OnlyHttpLags(live)
    ensures OnlyHttpLags(UpdateStep(live, scope, value, accept))
  {
    var without := live.(http := None);
    UpdateKeepsAgreement(without, scope, value, accept);
    HttpPassive(live, scope, value, accept);
    if Accepted(live, scope, value, accept) {
      var next := AcceptedDecides(live, scope, value, accept);
      StaticRootKept(live, scope, value, next);
      DecideAdopts(live, scope, next, accept);
    }
  }

  /** HTTP takes no options, so an update does the same with it and without it. */
  lemma HttpPassive(live: Live, scope: Section, value: Json, accept: bool)
    ensures UpdateStep(live, scope, value, accept) ==
            UpdateStep(live.(http := None), scope, value, accept).(http := live.http)
  {
    DecidePassive(live, scope, NextConfig(live, scope, value), accept);
    UpdateByDecide(live, scope, value, accept);
    UpdateByDecide(live.(http := None), scope, value, accept);
  }

  lemma DecidePassive(live: Live, scope: Section, next: Option<AppConfig>, accept: bool)
    ensures var without := Decide(live.(http := None), scope, next, accept);
            Decide(live, scope, next, accept) == (without.0, without.1.(http := live.http))
  {
  }

  /** The first accepted update decides: one of `http` makes the override the stored value, any other forgets it. */
  lemma FirstUpdateDecides(start: Live, loaded: AppConfig, scope: Section, value: Json, accept: bool)
    requires Load(StoredRoot(start.store)) == Some(loaded) && start.app.staticRoot != loaded.staticRoot
    requires start.app == loaded.(staticRoot := start.app.staticRoot)
    requires RtspAgrees(start) && WebrtcAgrees(start) && OnvifAgrees(start) && HttpAgrees(start) && start.http.Some?
    requires Accepted(start, scope, value, accept)
    ensures var after := UpdateStep(start, scope, value, accept);
            if scope == Http then Agreement(after) else OnlyHttpLags(after)
  {
    var next := NextConfig(start, scope, value).value;
    if scope == Http {
      HttpKeepsOverride(start, loaded, value, next);
    } else {
      ForgottenOverride(start, loaded, scope, value, next, accept);
    }
  }

  lemma HttpKeepsOverride(start: Live, loaded: AppConfig, value: Json, next: AppConfig)
    requires Load(StoredRoot(start.store)) == Some(loaded)
    requires start.app == loaded.(staticRoot := start.app.staticRoot)
    requires NextConfig(start, Http, value) == Some(next) && GuardAccepts(start.app, next, Http)
    ensures next == start.app
    ensures Load(StoredRoot(start.store[Http := value])) == Some(next)
  {
    AllOtherViewsKept(start.(app := loaded), Http, value, next);
    SameOutsideHttp(start.app, loaded, next);
    CommittedRoot(start.store, Http, value);
  }

  lemma SameOutsideHttp(current: AppConfig, loaded: AppConfig, next: AppConfig)
    requires current == loaded.(staticRoot := current.staticRoot) && next.listenIp == loaded.listenIp
    requires forall other | Known(other) && other != Http :: ViewOf(other, next) == ViewOf(other, loaded)
    requires GuardAccepts(current, next, Http)
    ensures next == current
  {
    GuardedFields(current, next, Http);
    forall section | Known(section)
      ensures ViewOf(section, next) == ViewOf(section, current)
    {
      if section != Http {
        assert ViewOf(section, next) == ViewOf(section, loaded);
      }
    }
    ViewsDetermine(next, current);
  }

  lemma SyncedOnlyHttpLags(start: Live, loaded: AppConfig)
    requires Load(StoredRoot(start.store)) == Some(loaded) && start.app.staticRoot != loaded.staticRoot
    requires start.app == loaded.(staticRoot := start.app.staticRoot)
    requires RtspAgrees(start) && WebrtcAgrees(start) && OnvifAgrees(start) && HttpAgrees(start) && start.http.Some?
    ensures OnlyHttpLags(start.(app := loaded))
  {
    assert Candidates(loaded, start.network) == Candidates(start.app, start.network);
  }

  /** Outside `http`, the update goes as if the configuration had been the stored one all along. */
  lemma ForgottenOverride(start: Live, loaded: AppConfig, scope: Section, value: Json, next: AppConfig, accept: bool)
    requires Load(StoredRoot(start.store)) == Some(loaded) && start.app.staticRoot != loaded.staticRoot
    requires start.app == loaded.(staticRoot := start.app.staticRoot) && scope != Http
    requires RtspAgrees(start) && WebrtcAgrees(start) && OnvifAgrees(start) && HttpAgrees(start) && start.http.Some?
    requires Accepted(start, scope, value, accept) && NextConfig(start, scope, value) == Some(next)
    ensures OnlyHttpLags(UpdateStep(start, scope, value, accept))
  {
    SyncedOnlyHttpLags(start, loaded);
    AsIfStored(start, loaded, scope, value, accept);
    UpdateKeepsOnlyHttpLags(start.(app := loaded), scope, value, accept);
  }

  lemma AsIfStored(start: Live, loaded: AppConfig, scope: Section, value: Json, accept: bool)
    requires start.app == loaded.(staticRoot := start.app.staticRoot) && scope != Http
    requires Accepted(start, scope, value, accept)
    ensures UpdateStep(start.(app := loaded), scope, value, accept) == UpdateStep(start, scope, value, accept)
  {
    var next := AcceptedDecides(start, scope, value, accept);
    StaticRootAside(start.app, loaded, next, scope);
    DecideStaticRootAside(start, loaded, scope, next, accept);
    DecidedUpdate(start.(app := loaded), scope, value, next, accept, Decide(start, scope, Some(next), accept).1);
  }

  lemma StaticRootAside(current: AppConfig, loaded: AppConfig, next: AppConfig, scope: Section)
    requires current == loaded.(staticRoot := current.staticRoot) && scope != Http
    ensures GuardAccepts(current, next, scope) <==> GuardAccepts(loaded, next, scope)
    ensures Changed(scope, current, next) <==> Changed(scope, loaded, next)
  {
    forall field: RestartField | HomeOf(field) == scope
      ensures ValueIn(field, current) == ValueIn(field, loaded)
    {
    }
  }

  lemma DecideStaticRootAside(live: Live, loaded: AppConfig, scope: Section, next: AppConfig, accept: bool)
    requires live.app == loaded.(staticRoot := live.app.staticRoot) && scope != Http
    requires Decide(live, scope, Some(next), accept).0 == Ok
    ensures Decide(live.(app := loaded), scope, Some(next), accept) == Decide(live, scope, Some(next), accept)
  {
    StaticRootAside(live.app, loaded, next, scope);
  }

  /** The three things a run after a start with an override can have come to. */
  lemma {:induction false} OverriddenRun(start: Live, loaded: AppConfig, events: seq<Event>)
    requires Load(StoredRoot(start.store)) == Some(loaded) && start.app.staticRoot != loaded.staticRoot
    requires start.app == loaded.(staticRoot := start.app.staticRoot)
    requires RtspAgrees(start) && WebrtcAgrees(start) && OnvifAgrees(start) && HttpAgrees(start) && start.http.Some?
    requires OnlyUpdates(events)
    ensures match FirstAccepted(start, events)
            case None => Run(start, events) == start
            case Some(scope) => if scope == Http then Agreement(Run(start, events)) else OnlyHttpLags(Run(start, events))
  {
    if events != [] {
      var before := events[..|events| - 1];
      var last := events[|events| - 1];
      OverriddenRun(start, loaded, before);
      var live := Run(start, before);
      match FirstAccepted(start, before)
      case None =>
        if Accepted(start, last.scope, last.value, last.accept) {
          FirstUpdateDecides(start, loaded, last.scope, last.value, last.accept);
        }
      case Some(scope) =>
        if scope == Http {
          UpdateKeepsAgreement(live, last.scope, last.value, last.accept);
        } else {
          UpdateKeepsOnlyHttpLags(live, last.scope, last.value, last.accept);
        }
    }
  }

  /**
    After any run of updates from a start with an override that differs from the stored static root: RTSP,
    WebRTC and ONVIF agree; HTTP agrees if and only if no update was accepted or the first one was of `http`;
    and the configuration is the load of the store if and only if one was accepted.
   */
  lemma OverriddenRunAgrees(store: Store, override: string, network: NetworkAnswers, up: Started, events: seq<Event>)
    requires Boot(store, override, network, up).Some? && OnlyUpdates(events)
    requires override != "" && override != Load(StoredRoot(store)).value.staticRoot
    ensures var start := Boot(store, override, network, up).value;
            var live := Run(start, events);
            var first := FirstAccepted(start, events);
            && RtspAgrees(live) && WebrtcAgrees(live) && OnvifAgrees(live)
            && (HttpAgrees(live) <==> first == None || first == Some(Http))
            && (InSync(live) <==> first.Some?)
  {
    var start := Boot(store, override, network, up).value;
    OverriddenRun(start, Load(StoredRoot(store)).value, events);
  }
}
