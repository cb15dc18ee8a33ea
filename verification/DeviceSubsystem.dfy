/**
  The device layer: five components, each started on the foundation and, but for the alarm, on a
  platform that is destroyed only after all of them.
 */
module Device {
  import opened Wrappers
  import opened ObjectGraphs
  import opened Lifetimes
  import opened Machines
  import opened Foundation

  predicate ComponentStarts(fate: Fate, kind: DeviceKind) {
    Makes(D(kind)) in fate && Starts(D(kind)) in fate
  }

  /** The calls on which the start of the device layer depends; a platform may be missing. */
  predicate DeviceStarts(fate: Fate) {
    && ComponentStarts(fate, SystemService) && ComponentStarts(fate, TimeService) && ComponentStarts(fate, NetworkService)
    && ComponentStarts(fate, AlarmService) && ComponentStarts(fate, UpgradeService)
  }

  predicate DeviceUp(w: World) {
    && Running(w.graph, D(SystemService)) && Running(w.graph, D(TimeService)) && Running(w.graph, D(NetworkService))
    && Running(w.graph, D(AlarmService)) && Running(w.graph, D(UpgradeService))
  }

  predicate PlatformsAbsent(w: World) {
    && D(SystemPlatform) !in w.graph.objs && D(TimePlatform) !in w.graph.objs
    && D(NetPlatform) !in w.graph.objs && D(UpgradePlatform) !in w.graph.objs
  }

  predicate ComponentsAbsent(w: World) {
    && D(SystemService) !in w.graph.objs && D(TimeService) !in w.graph.objs && D(NetworkService) !in w.graph.objs
    && D(AlarmService) !in w.graph.objs && D(UpgradeService) !in w.graph.objs
  }

  predicate DeviceAbsent(w: World) {
    PlatformsAbsent(w) && ComponentsAbsent(w)
  }

  /** The platform a component is built on. */
  function PlatformOf(component: DeviceKind): Option<DeviceKind> {
    match component
    case SystemService => Some(SystemPlatform)
    case TimeService => Some(TimePlatform)
    case NetworkService => Some(NetPlatform)
    case UpgradeService => Some(UpgradePlatform)
    case _ => None
  }

  predicate IsComponent(kind: DeviceKind) {
    DeviceComponent(D(kind))
  }

  // ----- Starting, on values -----

  predicate Grounded(w: World) {
    Running(w.graph, F(Logger)) && Running(w.graph, F(ConfigStore)) && Running(w.graph, F(EventBus))
  }

  function ComponentRefs(w: World, component: DeviceKind): map<Kind, nat>
    requires Grounded(w)
  {
    var refs := map[F(Logger) := w.graph.objs[F(Logger)].id, F(ConfigStore) := w.graph.objs[F(ConfigStore)].id,
                    F(EventBus) := w.graph.objs[F(EventBus)].id];
    if PlatformOf(component).Some? then WithOptional(refs, w, D(PlatformOf(component).value)) else refs
  }

  lemma ComponentNeeds(component: DeviceKind, target: Kind)
    requires IsComponent(component) && MustHold(D(component), target)
    ensures target == F(Logger) || target == F(ConfigStore) || target == F(EventBus)
  {
  }

  /** A platform takes nothing, and those who take it are not there yet. */
  lemma PlatformReady(rules: Rules<Kind>, w: World, platform: DeviceKind)
    requires rules == RULES && D(platform) !in w.graph.objs && Platform(D(platform)) && ComponentsAbsent(w)
    ensures RefsReady(rules, w, D(platform), map[])
  {
    forall other: Kind
      ensures !rules.mustHold(D(platform), other) && !rules.takes(D(platform), other)
      ensures rules.takes(other, D(platform)) ==> other !in w.graph.objs && other != D(platform)
    {
      SelfContainedNeedsNothing(D(platform), other);
      if Takes(D(platform), other) {
        WhoTakes(D(platform), other);
      }
      if Takes(other, D(platform)) {
        WhoTakes(other, D(platform));
      }
    }
  }

  lemma ComponentTakes(component: DeviceKind, target: Kind)
    requires IsComponent(component) && Takes(D(component), target)
    ensures target.D? && PlatformOf(component) == Some(target.d)
  {
    match component
    case SystemService =>
    case TimeService =>
    case NetworkService =>
    case UpgradeService =>
    case AlarmService =>
  }

  lemma ComponentRefGood(w: World, component: DeviceKind, target: Kind)
    requires Grounded(w) && IsComponent(component) && target in ComponentRefs(w, component)
    ensures MayHold(D(component), target) && Alive(w.graph, target, ComponentRefs(w, component)[target])
    ensures MustRun(D(component), target) ==> w.graph.objs[target].running
  {
  }

  lemma ComponentTaken(w: World, component: DeviceKind, other: Kind)
    requires Grounded(w) && IsComponent(component)
    ensures Takes(D(component), other) && other in w.graph.objs ==> other in ComponentRefs(w, component)
    ensures !Takes(other, D(component))
  {
    if Takes(D(component), other) {
      ComponentTakes(component, other);
    }
    if Takes(other, D(component)) {
      WhoTakes(other, D(component));
    }
  }

  lemma ComponentReady(rules: Rules<Kind>, w: World, component: DeviceKind)
    requires rules == RULES && Grounded(w) && IsComponent(component) && D(component) !in w.graph.objs
    ensures RefsReady(rules, w, D(component), ComponentRefs(w, component))
  {
    var refs := ComponentRefs(w, component);
    forall target: Kind | rules.mustHold(D(component), target)
      ensures target in refs
    {
      ComponentNeeds(component, target);
    }
    forall other: Kind
      ensures rules.takes(D(component), other) && other in w.graph.objs ==> other in refs
      ensures !rules.takes(other, D(component))
    {
      ComponentTaken(w, component, other);
    }
    forall target | target in refs
      ensures rules.mayHold(D(component), target) && Alive(w.graph, target, refs[target])
      ensures rules.mustRun(D(component), target) ==> w.graph.objs[target].running
    {
      ComponentRefGood(w, component, target);
    }
  }

  /** Where a start may have got to: the foundation stands, and nothing stands on the device layer. */
  ghost predicate DeviceUnderway(w: World) {
    NothingAbove(1, w) && FoundationUp(w)
  }

  lemma UnderwayMade(w: World, kind: DeviceKind, refs: map<Kind, nat>, fate: Fate)
    requires DeviceUnderway(w)
    ensures DeviceUnderway(Made(w, D(kind), refs, NoPayload, fate))
    ensures DeviceUnderway(Brought(w, D(kind), refs, NoPayload, fate))
  {
    NothingAboveMade(1, w, D(kind), refs, NoPayload, fate);
    FoundationKept(w, D(kind), refs, NoPayload, fate);
  }

  // ----- The outcome of a start -----

  function PlatformsMade(w: World, fate: Fate): World {
    var w1 := Made(w, D(SystemPlatform), map[], NoPayload, fate);
    var w2 := Made(w1, D(TimePlatform), map[], NoPayload, fate);
    var w3 := Made(w2, D(NetPlatform), map[], NoPayload, fate);
    Made(w3, D(UpgradePlatform), map[], NoPayload, fate)
  }

  lemma StillAbsent(w: World, kind: DeviceKind, other: Kind, fate: Fate)
    requires other !in w.graph.objs && other != D(kind)
    ensures other !in Made(w, D(kind), map[], NoPayload, fate).graph.objs
  {
  }

  function ComponentBrought(w: World, component: DeviceKind, fate: Fate): (after: World)
    requires Grounded(w)
    ensures Grounded(after)
  {
    Brought(w, D(component), ComponentRefs(w, component), NoPayload, fate)
  }

  function LastComponentsStarted(w: World, fate: Fate): World
    requires Grounded(w)
  {
    var w3 := ComponentBrought(w, NetworkService, fate);
    if !ComponentStarts(fate, NetworkService) then w3 else
    var w4 := ComponentBrought(w3, AlarmService, fate);
    if !ComponentStarts(fate, AlarmService) then w4 else
    ComponentBrought(w4, UpgradeService, fate)
  }

  /** A component is brought up only when the one before it started. */
  function ComponentsStarted(w: World, fate: Fate): World
    requires Grounded(w)
  {
    var w1 := ComponentBrought(w, SystemService, fate);
    if !ComponentStarts(fate, SystemService) then w1 else
    var w2 := ComponentBrought(w1, TimeService, fate);
    if !ComponentStarts(fate, TimeService) then w2 else
    LastComponentsStarted(w2, fate)
  }

  lemma BroughtAt(w: World, component: DeviceKind, fate: Fate, other: DeviceKind)
    requires Grounded(w) && D(component) !in w.graph.objs
    ensures var g := ComponentBrought(w, component, fate).graph;
            && (D(other) in g.objs <==> D(other) in w.graph.objs || (other == component && Makes(D(component)) in fate))
            && (Running(g, D(other)) <==>
                 Running(w.graph, D(other)) || (other == component && ComponentStarts(fate, component)))
  {
  }

  lemma LastStartInOrder(w: World, fate: Fate)
    requires Grounded(w) && Running(w.graph, D(TimeService))
    requires D(NetworkService) !in w.graph.objs && D(AlarmService) !in w.graph.objs && D(UpgradeService) !in w.graph.objs
    ensures var g := LastComponentsStarted(w, fate).graph;
            && (D(AlarmService) in g.objs ==> Running(g, D(NetworkService)))
            && (D(UpgradeService) in g.objs ==> Running(g, D(AlarmService)))
            && (Running(w.graph, D(SystemService)) ==> Running(g, D(SystemService))) && Running(g, D(TimeService))
  {
    var w3 := ComponentBrought(w, NetworkService, fate);
    BroughtAt(w, NetworkService, fate, SystemService);
    BroughtAt(w, NetworkService, fate, TimeService);
    BroughtAt(w, NetworkService, fate, NetworkService);
    BroughtAt(w, NetworkService, fate, AlarmService);
    BroughtAt(w, NetworkService, fate, UpgradeService);
    if ComponentStarts(fate, NetworkService) {
      AlarmThenUpgrade(w3, fate);
    }
  }

  lemma AlarmThenUpgrade(w: World, fate: Fate)
    requires Grounded(w) && D(AlarmService) !in w.graph.objs && D(UpgradeService) !in w.graph.objs
    ensures var w4 := ComponentBrought(w, AlarmService, fate);
            var g := (if ComponentStarts(fate, AlarmService) then ComponentBrought(w4, UpgradeService, fate) else w4).graph;
            && (D(UpgradeService) in g.objs ==> Running(g, D(AlarmService)))
            && (Running(w.graph, D(SystemService)) ==> Running(g, D(SystemService)))
            && (Running(w.graph, D(TimeService)) ==> Running(g, D(TimeService)))
            && (Running(w.graph, D(NetworkService)) ==> Running(g, D(NetworkService)))
  {
  }

  /** Whatever a start leaves behind on the way: a component is there only on top of the running one before it. */
  lemma StartsInOrder(w: World, fate: Fate)
    requires Grounded(w) && ComponentsAbsent(w)
    ensures var g := ComponentsStarted(w, fate).graph;
            && (D(TimeService) in g.objs ==> Running(g, D(SystemService)))
            && (D(NetworkService) in g.objs ==> Running(g, D(TimeService)))
            && (D(AlarmService) in g.objs ==> Running(g, D(NetworkService)))
            && (D(UpgradeService) in g.objs ==> Running(g, D(AlarmService)))
  {
    var w1 := ComponentBrought(w, SystemService, fate);
    SystemThenTime(w, fate);
    if ComponentStarts(fate, SystemService) && ComponentStarts(fate, TimeService) {
      LastStartInOrder(ComponentBrought(w1, TimeService, fate), fate);
    }
  }

  lemma SystemThenTime(w: World, fate: Fate)
    requires Grounded(w) && ComponentsAbsent(w)
    ensures var w1 := ComponentBrought(w, SystemService, fate);
            var g := (if ComponentStarts(fate, SystemService) then ComponentBrought(w1, TimeService, fate) else w1).graph;
            && (D(TimeService) in g.objs ==> Running(g, D(SystemService)))
            && (ComponentStarts(fate, SystemService) && ComponentStarts(fate, TimeService) ==>
                 Running(g, D(SystemService)) && Running(g, D(TimeService)))
            && D(NetworkService) !in g.objs && D(AlarmService) !in g.objs && D(UpgradeService) !in g.objs
  {
  }

  lemma PlatformsMadeUnderway(w: World, fate: Fate)
    requires DeviceUnderway(w)
    ensures DeviceUnderway(PlatformsMade(w, fate))
  {
    UnderwayMade(w, SystemPlatform, map[], fate);
    var w1 := Made(w, D(SystemPlatform), map[], NoPayload, fate);
    UnderwayMade(w1, TimePlatform, map[], fate);
    var w2 := Made(w1, D(TimePlatform), map[], NoPayload, fate);
    UnderwayMade(w2, NetPlatform, map[], fate);
    var w3 := Made(w2, D(NetPlatform), map[], NoPayload, fate);
    UnderwayMade(w3, UpgradePlatform, map[], fate);
  }

  /** The platforms are objects and nothing more. */
  lemma PlatformsMadeFrame(w: World, fate: Fate)
    ensures PlatformsMade(w, fate) == w.(graph := PlatformsMade(w, fate).graph)
  {
    var w1 := Made(w, D(SystemPlatform), map[], NoPayload, fate);
    assert w1 == w.(graph := w1.graph);
    var w2 := Made(w1, D(TimePlatform), map[], NoPayload, fate);
    assert w2 == w.(graph := w2.graph);
    var w3 := Made(w2, D(NetPlatform), map[], NoPayload, fate);
    assert w3 == w.(graph := w3.graph);
  }

  lemma AbsentAfterPlatforms(w: World, component: DeviceKind, fate: Fate)
    requires IsComponent(component) && D(component) !in w.graph.objs
    ensures D(component) !in PlatformsMade(w, fate).graph.objs
  {
    StillAbsent(w, SystemPlatform, D(component), fate);
    var w1 := Made(w, D(SystemPlatform), map[], NoPayload, fate);
    StillAbsent(w1, TimePlatform, D(component), fate);
    var w2 := Made(w1, D(TimePlatform), map[], NoPayload, fate);
    StillAbsent(w2, NetPlatform, D(component), fate);
    var w3 := Made(w2, D(NetPlatform), map[], NoPayload, fate);
    StillAbsent(w3, UpgradePlatform, D(component), fate);
  }

  lemma ComponentsAbsentAfterPlatforms(w: World, fate: Fate)
    requires ComponentsAbsent(w)
    ensures ComponentsAbsent(PlatformsMade(w, fate))
  {
    AbsentAfterPlatforms(w, SystemService, fate);
    AbsentAfterPlatforms(w, TimeService, fate);
    AbsentAfterPlatforms(w, NetworkService, fate);
    AbsentAfterPlatforms(w, AlarmService, fate);
    AbsentAfterPlatforms(w, UpgradeService, fate);
  }

  lemma ComponentBroughtUnderway(w: World, component: DeviceKind, fate: Fate)
    requires DeviceUnderway(w) && IsComponent(component)
    ensures DeviceUnderway(ComponentBrought(w, component, fate))
    ensures ComponentBrought(w, component, fate) == w.(graph := ComponentBrought(w, component, fate).graph)
  {
    UnderwayMade(w, component, ComponentRefs(w, component), fate);
  }

  lemma ComponentsStartedUnderway(w: World, fate: Fate)
    requires DeviceUnderway(w)
    ensures DeviceUnderway(ComponentsStarted(w, fate))
    ensures ComponentsStarted(w, fate) == w.(graph := ComponentsStarted(w, fate).graph)
  {
    ComponentBroughtUnderway(w, SystemService, fate);
    var w1 := ComponentBrought(w, SystemService, fate);
    ComponentBroughtUnderway(w1, TimeService, fate);
    var w2 := ComponentBrought(w1, TimeService, fate);
    ComponentBroughtUnderway(w2, NetworkService, fate);
    var w3 := ComponentBrought(w2, NetworkService, fate);
    ComponentBroughtUnderway(w3, AlarmService, fate);
    var w4 := ComponentBrought(w3, AlarmService, fate);
    ComponentBroughtUnderway(w4, UpgradeService, fate);
  }

  lemma BroughtRuns(w: World, component: DeviceKind, other: DeviceKind, fate: Fate)
    requires Grounded(w) && ComponentStarts(fate, component)
    ensures Running(ComponentBrought(w, component, fate).graph, D(component))
    ensures Running(w.graph, D(other)) ==> Running(ComponentBrought(w, component, fate).graph, D(other))
  {
  }

  lemma AllComponentsRun(w: World, fate: Fate)
    requires Grounded(w) && DeviceStarts(fate)
    ensures DeviceUp(ComponentsStarted(w, fate))
  {
    var w1 := ComponentBrought(w, SystemService, fate);
    var w2 := ComponentBrought(w1, TimeService, fate);
    var w3 := ComponentBrought(w2, NetworkService, fate);
    var w4 := ComponentBrought(w3, AlarmService, fate);
    BroughtRuns(w, SystemService, SystemService, fate);
    BroughtRuns(w1, TimeService, SystemService, fate);
    BroughtRuns(w2, NetworkService, SystemService, fate);
    BroughtRuns(w3, AlarmService, SystemService, fate);
    BroughtRuns(w4, UpgradeService, SystemService, fate);
    BroughtRuns(w2, NetworkService, TimeService, fate);
    BroughtRuns(w3, AlarmService, TimeService, fate);
    BroughtRuns(w4, UpgradeService, TimeService, fate);
    BroughtRuns(w3, AlarmService, NetworkService, fate);
    BroughtRuns(w4, UpgradeService, NetworkService, fate);
    BroughtRuns(w4, UpgradeService, AlarmService, fate);
  }

  // ----- Stopping, on values -----

  const DEVICE_KINDS: set<Kind> :=
    {D(SystemPlatform), D(TimePlatform), D(NetPlatform), D(UpgradePlatform), D(SystemService), D(TimeService),
     D(NetworkService), D(AlarmService), D(UpgradeService)}

  /** The outcome of stopping the device layer. */
  function DeviceStopped(w: World): World {
    w.(graph := Graph(w.graph.nextId, w.graph.objs - DEVICE_KINDS))
  }

  /** What Stop relies on: whatever stands above the device layer is gone. */
  ghost predicate DeviceStoppable(w: World) {
    NothingAbove(1, w) && w.services == map[] && w.media.None?
  }

  ghost predicate RuntimeClear(w: World) {
    forall kind: DeviceKind :: D(kind) !in w.runtime
  }

  lemma DeviceHolders(holder: Kind, target: DeviceKind)
    requires MayHold(holder, D(target)) && Layer(holder) == 1
    ensures holder.D? && IsComponent(holder.d) && PlatformOf(holder.d) == Some(target)
  {
  }

  lemma DeviceUnneeded(rules: Rules<Kind>, w: World, kind: DeviceKind)
    requires rules == RULES && DeviceStoppable(w) && RuntimeClear(w)
    requires forall component: DeviceKind | IsComponent(component) && PlatformOf(component) == Some(kind) ::
               D(component) !in w.graph.objs
    ensures Unneeded(rules, w, D(kind)) && DeviceStoppable(Retired(w, D(kind))) && RuntimeClear(Retired(w, D(kind)))
  {
    assert Unreferenced(w, D(kind));
    forall holder: Kind | MayHold(holder, D(kind)) && Layer(holder) == 1
      ensures holder in w.graph.objs ==> D(kind) !in w.graph.objs[holder].refs
    {
      DeviceHolders(holder, kind);
    }
    UnneededInLayer(rules, w, D(kind));
    NothingAboveRetired(1, w, D(kind));
  }

  lemma ComponentUnneeded(rules: Rules<Kind>, w: World, kind: DeviceKind)
    requires rules == RULES && DeviceStoppable(w) && RuntimeClear(w) && IsComponent(kind)
    ensures Unneeded(rules, w, D(kind)) && DeviceStoppable(Retired(w, D(kind))) && RuntimeClear(Retired(w, D(kind)))
  {
    DeviceUnneeded(rules, w, kind);
  }

  lemma PlatformUnneeded(rules: Rules<Kind>, w: World, component: DeviceKind, platform: DeviceKind)
    requires rules == RULES && DeviceStoppable(w) && RuntimeClear(w)
    requires IsComponent(component) && PlatformOf(component) == Some(platform) && D(component) !in w.graph.objs
    ensures Unneeded(rules, w, D(platform))
    ensures DeviceStoppable(Retired(w, D(platform))) && RuntimeClear(Retired(w, D(platform)))
  {
    DeviceUnneeded(rules, w, platform);
  }

  lemma RuntimeHasNoDevice(w: World)
    requires WorldSafe(RULES, w)
    ensures RuntimeClear(w)
  {
  }

  function HalfStopped(w: World): World {
    Retired(Retired(Retired(Retired(Retired(w, D(UpgradeService)), D(UpgradePlatform)), D(AlarmService)),
                    D(NetworkService)), D(TimeService))
  }

  lemma DeviceRetired(w: World)
    ensures Retired(Retired(Retired(Retired(HalfStopped(w), D(SystemService)), D(NetPlatform)), D(TimePlatform)),
                    D(SystemPlatform)) == DeviceStopped(w)
  {
    assert w.graph.objs - {D(UpgradeService)} - {D(UpgradePlatform)} - {D(AlarmService)} - {D(NetworkService)}
           - {D(TimeService)} - {D(SystemService)} - {D(NetPlatform)} - {D(TimePlatform)} - {D(SystemPlatform)} ==
           w.graph.objs - DEVICE_KINDS;
  }

  lemma EveryDeviceKind(kind: DeviceKind)
    ensures D(kind) in DEVICE_KINDS
  {
    match kind
    case SystemPlatform =>
    case _ =>
  }

  lemma DeviceStoppedIsStoppable(w: World)
    requires DeviceStoppable(w)
    ensures DeviceStoppable(DeviceStopped(w)) && DeviceAbsent(DeviceStopped(w)) && NothingAbove(0, DeviceStopped(w))
  {
    forall kind | kind in DeviceStopped(w).graph.objs
      ensures !kind.D?
    {
      if kind.D? {
        EveryDeviceKind(kind.d);
      }
    }
  }

  class DeviceSubsystem {
    const m: Machine
    var started: bool

    ghost predicate Valid()
      reads this, m
    {
      m.Valid() && m.rules == RULES && if started then DeviceUp(m.w) else DeviceAbsent(m.w)
    }

    constructor (m: Machine)
      requires m.Valid() && m.rules == RULES && DeviceAbsent(m.w)
      ensures Valid() && this.m == m && !started
    {
      this.m := m;
      started := false;
    }

    method MakePlatform(platform: DeviceKind, fate: Fate)
      requires m.Valid() && m.rules == RULES && D(platform) !in m.w.graph.objs && Platform(D(platform))
      requires ComponentsAbsent(m.w)
      modifies m
      ensures m.Valid() && old(m.trace) <= m.trace
      ensures m.w == Made(old(m.w), D(platform), map[], NoPayload, fate) && ComponentsAbsent(m.w)
    {
      PlatformReady(m.rules, m.w, platform);
      var made := m.Make(D(platform), map[], NoPayload, fate);
    }

    /** The platforms, which the caller makes for this call; any of them may be missing. */
    method MakePlatforms(fate: Fate)
      requires m.Valid() && m.rules == RULES && DeviceAbsent(m.w)
      modifies m
      ensures m.Valid() && old(m.trace) <= m.trace
      ensures m.w == PlatformsMade(old(m.w), fate)
    {
      ghost var w0 := m.w;
      ghost var w1 := Made(w0, D(SystemPlatform), map[], NoPayload, fate);
      ghost var w2 := Made(w1, D(TimePlatform), map[], NoPayload, fate);
      StillAbsent(w0, SystemPlatform, D(TimePlatform), fate);
      StillAbsent(w0, SystemPlatform, D(NetPlatform), fate);
      StillAbsent(w0, SystemPlatform, D(UpgradePlatform), fate);
      StillAbsent(w1, TimePlatform, D(NetPlatform), fate);
      StillAbsent(w1, TimePlatform, D(UpgradePlatform), fate);
      StillAbsent(w2, NetPlatform, D(UpgradePlatform), fate);
      MakePlatform(SystemPlatform, fate);
      MakePlatform(TimePlatform, fate);
      MakePlatform(NetPlatform, fate);
      MakePlatform(UpgradePlatform, fate);
    }

    method StartComponent(component: DeviceKind, fate: Fate) returns (ok: bool)
      requires m.Valid() && m.rules == RULES && Grounded(m.w)
      requires IsComponent(component) && D(component) !in m.w.graph.objs
      modifies m
      ensures m.Valid() && old(m.trace) <= m.trace
      ensures ok == ComponentStarts(fate, component)
      ensures m.w == ComponentBrought(old(m.w), component, fate)
    {
      var refs := ComponentRefs(m.w, component);
      ComponentReady(m.rules, m.w, component);
      ok := m.Bring(D(component), refs, NoPayload, fate);
    }

    method StartLastComponents(fate: Fate) returns (ok: bool)
      requires m.Valid() && m.rules == RULES && Grounded(m.w)
      requires D(NetworkService) !in m.w.graph.objs && D(AlarmService) !in m.w.graph.objs && D(UpgradeService) !in m.w.graph.objs
      modifies m
      ensures m.Valid() && old(m.trace) <= m.trace
      ensures ok == (ComponentStarts(fate, NetworkService) && ComponentStarts(fate, AlarmService) &&
                     ComponentStarts(fate, UpgradeService))
      ensures m.w == LastComponentsStarted(old(m.w), fate)
    {
      ok := StartComponent(NetworkService, fate);
      if ok {
        ok := StartComponent(AlarmService, fate);
      }
      if ok {
        ok := StartComponent(UpgradeService, fate);
      }
    }

    /** The components, each only if the one before it started. */
    method StartComponents(fate: Fate) returns (ok: bool)
      requires m.Valid() && m.rules == RULES && Grounded(m.w) && ComponentsAbsent(m.w)
      modifies m
      ensures m.Valid() && old(m.trace) <= m.trace
      ensures ok == DeviceStarts(fate)
      ensures m.w == ComponentsStarted(old(m.w), fate)
    {
      ok := StartComponent(SystemService, fate);
      if ok {
        ok := StartComponent(TimeService, fate);
      }
      if ok {
        ok := StartLastComponents(fate);
      }
    }

    /**
      Succeeds exactly when all five components start; otherwise stops again, so that nothing of the device
      layer is left.  The foundation is not touched either way.
     */
    method Start(fate: Fate) returns (ok: bool)
      requires Valid() && (!started ==> DeviceUnderway(m.w) && m.w.services == map[] && m.w.media.None?)
      modifies this, m
      ensures Valid() && started == ok && old(m.trace) <= m.trace
      ensures ok == (old(started) || DeviceStarts(fate))
      ensures old(started) ==> m.w == old(m.w)
      ensures !old(started) ==> m.w == old(m.w).(graph := m.w.graph) && DeviceStoppable(m.w)
      ensures !old(started) && ok ==> FoundationUp(m.w)
    {
      if started {
        return true;
      }
      PlatformsMadeUnderway(m.w, fate);
      PlatformsMadeFrame(m.w, fate);
      ComponentsAbsentAfterPlatforms(m.w, fate);
      MakePlatforms(fate);
      ComponentsStartedUnderway(m.w, fate);
      if DeviceStarts(fate) {
        AllComponentsRun(m.w, fate);
      }
      ok := StartComponents(fate);
      if !ok {
        DeviceStoppedIsStoppable(m.w);
        Stop();
        return;
      }
      started := true;
    }

    method StopFirstHalf()
      requires m.Valid() && m.rules == RULES && DeviceStoppable(m.w) && RuntimeClear(m.w)
      modifies m
      ensures m.Valid() && old(m.trace) <= m.trace && DeviceStoppable(m.w) && RuntimeClear(m.w)
      ensures m.w == HalfStopped(old(m.w))
    {
      ComponentUnneeded(m.rules, m.w, UpgradeService);
      m.Retire(D(UpgradeService));
      PlatformUnneeded(m.rules, m.w, UpgradeService, UpgradePlatform);
      m.PassiveDoesNotRun(D(UpgradePlatform));
      m.Reset(D(UpgradePlatform));
      ComponentUnneeded(m.rules, m.w, AlarmService);
      m.Retire(D(AlarmService));
      ComponentUnneeded(m.rules, m.w, NetworkService);
      m.Retire(D(NetworkService));
      ComponentUnneeded(m.rules, m.w, TimeService);
      m.Retire(D(TimeService));
    }

    method StopSecondHalf()
      requires m.Valid() && m.rules == RULES && DeviceStoppable(m.w) && RuntimeClear(m.w)
      requires D(NetworkService) !in m.w.graph.objs && D(TimeService) !in m.w.graph.objs
      modifies m
      ensures m.Valid() && old(m.trace) <= m.trace
      ensures m.w == Retired(Retired(Retired(Retired(old(m.w), D(SystemService)), D(NetPlatform)), D(TimePlatform)),
                             D(SystemPlatform))
    {
      ComponentUnneeded(m.rules, m.w, SystemService);
      m.Retire(D(SystemService));
      PlatformUnneeded(m.rules, m.w, NetworkService, NetPlatform);
      m.PassiveDoesNotRun(D(NetPlatform));
      m.Reset(D(NetPlatform));
      StopLastPlatforms();
    }

    method StopLastPlatforms()
      requires m.Valid() && m.rules == RULES && DeviceStoppable(m.w) && RuntimeClear(m.w)
      requires D(TimeService) !in m.w.graph.objs && D(SystemService) !in m.w.graph.objs
      modifies m
      ensures m.Valid() && old(m.trace) <= m.trace
      ensures m.w == Retired(Retired(old(m.w), D(TimePlatform)), D(SystemPlatform))
    {
      PlatformUnneeded(m.rules, m.w, TimeService, TimePlatform);
      m.PassiveDoesNotRun(D(TimePlatform));
      m.Reset(D(TimePlatform));
      PlatformUnneeded(m.rules, m.w, SystemService, SystemPlatform);
      m.PassiveDoesNotRun(D(SystemPlatform));
      m.Reset(D(SystemPlatform));
    }

    /** From whatever point a start has reached: nothing of the device layer is left. */
    method Stop()
      requires m.Valid() && m.rules == RULES && DeviceStoppable(m.w)
      modifies this, m
      ensures m.Valid() && !started && old(m.trace) <= m.trace
      ensures m.w == DeviceStopped(old(m.w))
    {
      m.NowSafe();
      RuntimeHasNoDevice(m.w);
      DeviceRetired(m.w);
      StopFirstHalf();
      StopSecondHalf();
      started := false;
    }
  }
}
