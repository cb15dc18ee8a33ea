/**
  The foundation: logger, configuration service, event bus, audit sink and authentication, and the
  runtime table that publishes them.
 */
module Foundation {
  import opened Wrappers
  import opened ConfigLoader
  import opened ConfigService
  import opened ObjectGraphs
  import opened Lifetimes
  import opened Machines

  /** The start-up paths, of which only their presence matters here. */
  datatype StartupPaths = StartupPaths(businessConfig: Option<string>, defaultConfig: Option<string>,
                                       authUsers: Option<string>, operationLog: Option<string>)
  {
    predicate Complete() {
      businessConfig.Some? && defaultConfig.Some? && authUsers.Some? && operationLog.Some?
    }
  }

  const FOUNDATION_KINDS: set<Kind> := {F(Logger), F(ConfigStore), F(EventBus), F(AuditSink), F(Auth)}

  /** The calls on which the start of the foundation depends; the audit sink is optional. */
  predicate FoundationStarts(fate: Fate) {
    && Makes(F(Logger)) in fate && Starts(F(Logger)) in fate
    && Makes(F(ConfigStore)) in fate && Starts(F(ConfigStore)) in fate && Installs(F(ConfigStore)) in fate
    && Makes(F(EventBus)) in fate && Starts(F(EventBus)) in fate
    && Makes(F(Auth)) in fate && Starts(F(Auth)) in fate
    && Installs(F(Logger)) in fate && Installs(F(EventBus)) in fate && Installs(F(Auth)) in fate
  }

  /** The configuration service comes up, and has read its file. */
  predicate ConfigReads(fate: Fate) {
    && Makes(F(Logger)) in fate && Starts(F(Logger)) in fate
    && Makes(F(ConfigStore)) in fate && Starts(F(ConfigStore)) in fate
  }

  /** The stored sections after a start, successful or not. */
  function SectionsAfterStart(paths: StartupPaths, fate: Fate, file: Store, defaults: Store): Store {
    if paths.Complete() && ConfigReads(fate) then Merge(file, defaults) else file
  }

  /** Everything runs and is published. */
  predicate FoundationUp(w: World) {
    && Running(w.graph, F(Logger)) && Running(w.graph, F(ConfigStore)) && Running(w.graph, F(EventBus)) && Running(w.graph, F(Auth))
    && F(AuditSink) in w.graph.objs
    && F(Logger) in w.runtime && F(ConfigStore) in w.runtime && F(EventBus) in w.runtime && F(Auth) in w.runtime
  }

  /** Making an object of another layer does not touch the foundation. */
  lemma FoundationKept(w: World, kind: Kind, refs: map<Kind, nat>, payload: Payload, fate: Fate)
    requires FoundationUp(w) && !kind.F?
    ensures FoundationUp(Made(w, kind, refs, payload, fate))
    ensures FoundationUp(Brought(w, kind, refs, payload, fate))
  {
  }

  predicate FoundationAbsent(w: World) {
    && F(Logger) !in w.graph.objs && F(ConfigStore) !in w.graph.objs && F(EventBus) !in w.graph.objs
    && F(AuditSink) !in w.graph.objs && F(Auth) !in w.graph.objs
  }

  /** The outcome of stopping the foundation. */
  function FoundationStopped(w: World): World {
    World(Graph(w.graph.nextId, w.graph.objs - FOUNDATION_KINDS), map[], w.services, w.media, {}, w.store, w.answers)
  }

  // ----- Stopping, on values -----

  /** What Stop relies on: whatever stands above the foundation is gone. */
  ghost predicate FoundationStoppable(w: World) {
    NothingAbove(0, w) && w.services == map[] && w.media.None?
  }

  ghost predicate Detached(w: World) {
    NothingAbove(0, w) && w.runtime == map[] && w.services == map[] && w.media.None?
  }

  lemma FoundationHolders(holder: Kind, target: Kind)
    requires MayHold(holder, target) && Layer(holder) == 0
    ensures (target == F(Logger) && holder == F(AuditSink)) ||
            (holder == F(Auth) && (target == F(AuditSink) || target == F(ConfigStore)))
  {
  }

  lemma FoundationUnneeded(rules: Rules<Kind>, w: World, kind: Kind)
    requires rules == RULES && Detached(w) && Layer(kind) == 0
    requires kind == F(AuditSink) || kind == F(ConfigStore) ==> F(Auth) !in w.graph.objs
    requires kind == F(Logger) ==> F(AuditSink) !in w.graph.objs
    ensures Unneeded(rules, w, kind) && Detached(Retired(w, kind))
  {
    assert Unreferenced(w, kind);
    forall holder: Kind | MayHold(holder, kind) && Layer(holder) == 0
      ensures holder in w.graph.objs ==> kind !in w.graph.objs[holder].refs
    {
      FoundationHolders(holder, kind);
    }
    UnneededInLayer(rules, w, kind);
    NothingAboveRetired(0, w, kind);
  }

  lemma FoundationRetired(w: World)
    ensures Retired(Retired(Retired(Retired(Retired(w, F(Auth)), F(AuditSink)), F(EventBus)), F(ConfigStore)), F(Logger)) ==
            FoundationStopped(w).(runtime := w.runtime)
  {
    assert w.graph.objs - {F(Auth)} - {F(AuditSink)} - {F(EventBus)} - {F(ConfigStore)} - {F(Logger)} == w.graph.objs - FOUNDATION_KINDS;
  }

  // ----- Starting, on values -----

  lemma StoppableMade(w: World, kind: FoundationKind, refs: map<Kind, nat>, fate: Fate)
    requires FoundationStoppable(w)
    ensures FoundationStoppable(Made(w, F(kind), refs, NoPayload, fate))
    ensures FoundationStoppable(Brought(w, F(kind), refs, NoPayload, fate))
  {
    NothingAboveMade(0, w, F(kind), refs, NoPayload, fate);
  }

  predicate MakesAndStarts(fate: Fate, kind: FoundationKind) {
    Makes(F(kind)) in fate && Starts(F(kind)) in fate
  }

  predicate StoresStart(fate: Fate) {
    && MakesAndStarts(fate, Logger) && MakesAndStarts(fate, ConfigStore) && Installs(F(ConfigStore)) in fate
    && MakesAndStarts(fate, EventBus)
  }

  /** How far the configuration service gets: its file is read before it is published. */
  function ConfigStarted(w: World, fate: Fate, defaults: Store): World {
    w.(graph := Brought(w, F(ConfigStore), map[], NoPayload, fate).graph,
       store := if MakesAndStarts(fate, ConfigStore) then Merge(w.store, defaults) else w.store,
       runtime := if MakesAndStarts(fate, ConfigStore) && Installs(F(ConfigStore)) in fate
                  then w.runtime[F(ConfigStore) := w.graph.nextId] else w.runtime)
  }

  function ConfigAndEventsStarted(w: World, fate: Fate, defaults: Store): World {
    var w1 := ConfigStarted(w, fate, defaults);
    if MakesAndStarts(fate, ConfigStore) && Installs(F(ConfigStore)) in fate
    then Brought(w1, F(EventBus), map[], NoPayload, fate) else w1
  }

  function StoresStarted(w: World, fate: Fate, defaults: Store): World {
    var w1 := Brought(w, F(Logger), map[], NoPayload, fate);
    if MakesAndStarts(fate, Logger) then ConfigAndEventsStarted(w1, fate, defaults) else w1
  }

  /** What a stage leaves to the next: nothing above the foundation, no authentication yet. */
  ghost predicate BeforeAuth(w: World) {
    FoundationStoppable(w) && F(Auth) !in w.graph.objs && F(AuditSink) !in w.graph.objs
  }

  lemma BroughtBeforeAuth(w: World, kind: FoundationKind, fate: Fate)
    requires BeforeAuth(w) && kind != Auth && kind != AuditSink
    ensures BeforeAuth(Brought(w, F(kind), map[], NoPayload, fate))
    ensures Brought(w, F(kind), map[], NoPayload, fate) == w.(graph := Brought(w, F(kind), map[], NoPayload, fate).graph)
  {
    StoppableMade(w, kind, map[], fate);
  }

  lemma ConfigStartedIs(w: World, fate: Fate, defaults: Store)
    requires BeforeAuth(w)
    ensures BeforeAuth(ConfigStarted(w, fate, defaults))
  {
    BroughtBeforeAuth(w, ConfigStore, fate);
  }

  lemma StoresStartedAre(w: World, fate: Fate, defaults: Store)
    requires BeforeAuth(w)
    ensures var after := StoresStarted(w, fate, defaults);
            && BeforeAuth(after)
            && after == w.(graph := after.graph, runtime := after.runtime,
                           store := if ConfigReads(fate) then Merge(w.store, defaults) else w.store)
  {
    var w1 := Brought(w, F(Logger), map[], NoPayload, fate);
    BroughtBeforeAuth(w, Logger, fate);
    var w2 := ConfigStarted(w1, fate, defaults);
    ConfigStartedIs(w1, fate, defaults);
    BroughtBeforeAuth(w2, EventBus, fate);
  }

  lemma StoresStartedRun(w: World, fate: Fate, defaults: Store)
    requires StoresStart(fate)
    ensures var after := StoresStarted(w, fate, defaults);
            && Running(after.graph, F(Logger)) && Running(after.graph, F(ConfigStore)) && Running(after.graph, F(EventBus))
            && F(ConfigStore) in after.runtime
  {
  }

  lemma SinkReady(rules: Rules<Kind>, w: World)
    requires rules == RULES && F(AuditSink) !in w.graph.objs && Running(w.graph, F(Logger))
    ensures RefsReady(rules, w, F(AuditSink), map[F(Logger) := w.graph.objs[F(Logger)].id])
  {
    forall target: Kind | MustHold(F(AuditSink), target)
      ensures target == F(Logger)
    {
    }
    PlainReady(rules, w, F(AuditSink), map[F(Logger) := w.graph.objs[F(Logger)].id]);
  }

  /** The audit sink made, reporting to the logger, and handed to authentication if that takes it. */
  function SinkAttached(w: World, fate: Fate): World
    requires F(Logger) in w.graph.objs && F(Auth) in w.graph.objs
  {
    var sink := Obj(w.graph.nextId, false, map[F(Logger) := w.graph.objs[F(Logger)].id], NoPayload);
    var auth := w.graph.objs[F(Auth)];
    var objs := w.graph.objs[F(AuditSink) := sink];
    w.(graph := Graph(w.graph.nextId + 1,
                      if TakesAuditSink in fate
                      then objs[F(Auth) := auth.(refs := auth.refs[F(AuditSink) := w.graph.nextId])]
                      else objs))
  }

  lemma SinkPlan(rules: Rules<Kind>, w: World, refs: map<Kind, nat>)
    requires rules == RULES && F(AuditSink) !in w.graph.objs && Running(w.graph, F(Logger))
    requires refs == map[F(Logger) := w.graph.objs[F(Logger)].id]
    ensures MayObject(rules, w, Create(F(AuditSink), refs, NoPayload))
    ensures NextObject(w, Create(F(AuditSink), refs, NoPayload)) == WithNew(w, F(AuditSink), refs, NoPayload)
  {
    SinkReady(rules, w);
    MayMake(rules, w, F(AuditSink), refs, NoPayload);
  }

  lemma LinkPlan(rules: Rules<Kind>, w: World)
    requires rules == RULES && F(AuditSink) in w.graph.objs && F(Auth) in w.graph.objs && !Running(w.graph, F(Auth))
    ensures MayObject(rules, w, Link(F(Auth), F(AuditSink)))
  {
    assert MayHold(F(Auth), F(AuditSink));
  }

  /** Authentication reads its users through the configuration service of the runtime. */
  function AuthRefs(w: World): map<Kind, nat>
    requires F(ConfigStore) in w.graph.objs
  {
    map[F(ConfigStore) := w.graph.objs[F(ConfigStore)].id]
  }

  lemma AuthReady(rules: Rules<Kind>, w: World)
    requires rules == RULES && F(Auth) !in w.graph.objs && Running(w.graph, F(ConfigStore))
    ensures RefsReady(rules, w, F(Auth), AuthRefs(w))
  {
    forall target: Kind | MustHold(F(Auth), target)
      ensures target == F(ConfigStore)
    {
    }
    PlainReady(rules, w, F(Auth), AuthRefs(w));
  }

  lemma AuthStartPlan(rules: Rules<Kind>, w: World)
    requires rules == RULES && F(Auth) in w.graph.objs && Running(w.graph, F(ConfigStore))
    requires w.graph.objs[F(Auth)].refs == AuthRefs(w) ||
             (F(AuditSink) in w.graph.objs &&
              w.graph.objs[F(Auth)].refs == AuthRefs(w)[F(AuditSink) := w.graph.objs[F(AuditSink)].id])
    ensures MayObject(rules, w, Op.Start(F(Auth)))
  {
    assert !MustRun(F(Auth), F(AuditSink));
  }

  /** How far authentication gets. */
  function AuthStarted(w: World, fate: Fate): World
    requires F(Logger) in w.graph.objs && F(ConfigStore) in w.graph.objs
  {
    if Makes(F(Auth)) !in fate then w
    else
      var attached := SinkAttached(WithNew(w, F(Auth), AuthRefs(w), NoPayload), fate);
      if Starts(F(Auth)) in fate then NextObject(attached, Op.Start(F(Auth))) else attached
  }

  /** Authentication reports to the audit sink. */
  predicate Audited(w: World) {
    F(Auth) in w.graph.objs && F(AuditSink) in w.graph.objs[F(Auth)].refs
  }

  lemma AuthStartedStoppable(w: World, fate: Fate)
    requires FoundationStoppable(w) && F(Logger) in w.graph.objs && F(ConfigStore) in w.graph.objs
    requires F(Auth) !in w.graph.objs && F(AuditSink) !in w.graph.objs
    ensures FoundationStoppable(AuthStarted(w, fate))
    ensures AuthStarted(w, fate) == w.(graph := AuthStarted(w, fate).graph)
  {
    var made := WithNew(w, F(Auth), AuthRefs(w), NoPayload);
    if Makes(F(Auth)) in fate {
      AttachedStoppable(made, fate);
    }
  }

  lemma AttachedStoppable(w: World, fate: Fate)
    requires FoundationStoppable(w) && F(Logger) in w.graph.objs && F(Auth) in w.graph.objs
    ensures FoundationStoppable(SinkAttached(w, fate)) && F(Auth) in SinkAttached(w, fate).graph.objs
    ensures SinkAttached(w, fate) == w.(graph := SinkAttached(w, fate).graph)
  {
  }

  lemma AuthStartedRuns(w: World, fate: Fate)
    requires F(Logger) in w.graph.objs && F(ConfigStore) in w.graph.objs
    requires Makes(F(Auth)) in fate && Starts(F(Auth)) in fate
    requires F(Auth) !in w.graph.objs && F(AuditSink) !in w.graph.objs
    ensures var after := AuthStarted(w, fate);
            && Running(after.graph, F(Auth)) && F(AuditSink) in after.graph.objs
            && (Running(w.graph, F(Logger)) ==> Running(after.graph, F(Logger)))
            && (Running(w.graph, F(ConfigStore)) ==> Running(after.graph, F(ConfigStore)))
            && (Running(w.graph, F(EventBus)) ==> Running(after.graph, F(EventBus)))
            && after.runtime == w.runtime && (Audited(after) <==> TakesAuditSink in fate)
  {
  }

  class FoundationSubsystem {
    const m: Machine
    var started: bool

    ghost predicate Valid()
      reads this, m
    {
      m.Valid() && m.rules == RULES && if started then FoundationUp(m.w) else FoundationAbsent(m.w)
    }

    constructor (m: Machine)
      requires m.Valid() && m.rules == RULES && FoundationAbsent(m.w)
      ensures Valid() && this.m == m && !started
    {
      this.m := m;
      started := false;
    }

    /** Loading the file is part of starting the configuration service. */
    method StartConfigStore(fate: Fate) returns (ok: bool)
      requires m.Valid() && m.rules == RULES && F(ConfigStore) !in m.w.graph.objs
      modifies m
      ensures m.Valid() && old(m.trace) <= m.trace
      ensures ok == (MakesAndStarts(fate, ConfigStore) && Installs(F(ConfigStore)) in fate)
      ensures m.w == ConfigStarted(old(m.w), fate, m.defaults)
    {
      NoNeeds(m.rules, m.w, F(ConfigStore));
      ok := m.Bring(F(ConfigStore), map[], NoPayload, fate);
      if ok {
        m.Tell(ReadFile(m.defaults));
        ok := Installs(F(ConfigStore)) in fate;
      }
      if ok {
        m.Tell(Install(F(ConfigStore)));
      }
    }

    method StartConfigAndEvents(fate: Fate) returns (ok: bool)
      requires m.Valid() && m.rules == RULES && F(ConfigStore) !in m.w.graph.objs && F(EventBus) !in m.w.graph.objs
      modifies m
      ensures m.Valid() && old(m.trace) <= m.trace
      ensures ok == (MakesAndStarts(fate, ConfigStore) && Installs(F(ConfigStore)) in fate && MakesAndStarts(fate, EventBus))
      ensures m.w == ConfigAndEventsStarted(old(m.w), fate, m.defaults)
    {
      ok := StartConfigStore(fate);
      if ok {
        NoNeeds(m.rules, m.w, F(EventBus));
        ok := m.Bring(F(EventBus), map[], NoPayload, fate);
      }
    }

    /** The logger, the configuration service and the event bus. */
    method StartStores(fate: Fate) returns (ok: bool)
      requires m.Valid() && m.rules == RULES && FoundationAbsent(m.w)
      modifies m
      ensures m.Valid() && old(m.trace) <= m.trace
      ensures ok == StoresStart(fate)
      ensures m.w == StoresStarted(old(m.w), fate, m.defaults)
    {
      NoNeeds(m.rules, m.w, F(Logger));
      ok := m.Bring(F(Logger), map[], NoPayload, fate);
      if ok {
        ok := StartConfigAndEvents(fate);
      }
    }

    method AttachSink(fate: Fate)
      requires m.Valid() && m.rules == RULES && Running(m.w.graph, F(Logger)) && F(AuditSink) !in m.w.graph.objs
      requires F(Auth) in m.w.graph.objs && !Running(m.w.graph, F(Auth))
      modifies m
      ensures m.Valid() && old(m.trace) <= m.trace
      ensures m.w == SinkAttached(old(m.w), fate)
    {
      var refs := map[F(Logger) := m.w.graph.objs[F(Logger)].id];
      SinkPlan(m.rules, m.w, refs);
      m.Act(Create(F(AuditSink), refs, NoPayload));
      if TakesAuditSink in fate {
        LinkPlan(m.rules, m.w);
        m.Act(Link(F(Auth), F(AuditSink)));
      }
    }

    /** Authentication, reporting to the logger through the audit sink if it takes the sink. */
    method StartAuth(fate: Fate) returns (ok: bool)
      requires m.Valid() && m.rules == RULES && Running(m.w.graph, F(Logger)) && Running(m.w.graph, F(ConfigStore))
      requires F(Auth) !in m.w.graph.objs && F(AuditSink) !in m.w.graph.objs
      modifies m
      ensures m.Valid() && old(m.trace) <= m.trace
      ensures ok == (Makes(F(Auth)) in fate && Starts(F(Auth)) in fate)
      ensures m.w == AuthStarted(old(m.w), fate)
    {
      AuthReady(m.rules, m.w);
      ok := m.Make(F(Auth), AuthRefs(m.w), NoPayload, fate);
      if !ok {
        return;
      }
      AttachSink(fate);
      ok := Starts(F(Auth)) in fate;
      if ok {
        AuthStartPlan(m.rules, m.w);
        m.Act(Op.Start(F(Auth)));
      }
    }

    method InstallAll(fate: Fate) returns (ok: bool)
      requires m.Valid() && m.rules == RULES
      requires Running(m.w.graph, F(Logger)) && Running(m.w.graph, F(EventBus)) && Running(m.w.graph, F(Auth))
      modifies m
      ensures m.Valid() && old(m.trace) <= m.trace
      ensures m.w == old(m.w).(runtime := m.w.runtime)
      ensures ok == (Installs(F(Logger)) in fate && Installs(F(EventBus)) in fate && Installs(F(Auth)) in fate)
      ensures forall kind | kind in old(m.w).runtime :: kind in m.w.runtime
      ensures ok ==> F(Logger) in m.w.runtime && F(EventBus) in m.w.runtime && F(Auth) in m.w.runtime
    {
      ok := Installs(F(Logger)) in fate;
      if ok {
        m.Tell(Install(F(Logger)));
        ok := Installs(F(EventBus)) in fate;
      }
      if ok {
        m.Tell(Install(F(EventBus)));
        ok := Installs(F(Auth)) in fate;
      }
      if ok {
        m.Tell(Install(F(Auth)));
      }
    }

    /** Every stage in order, as far as they succeed. */
    method StartAll(fate: Fate) returns (ok: bool)
      requires m.Valid() && m.rules == RULES && FoundationAbsent(m.w) && FoundationStoppable(m.w)
      modifies m
      ensures m.Valid() && old(m.trace) <= m.trace && FoundationStoppable(m.w)
      ensures ok == FoundationStarts(fate) && (ok ==> FoundationUp(m.w) && (Audited(m.w) <==> TakesAuditSink in fate))
      ensures m.w == old(m.w).(graph := m.w.graph, runtime := m.w.runtime,
                               store := if ConfigReads(fate) then Merge(old(m.w).store, m.defaults) else old(m.w).store)
    {
      StoresStartedAre(m.w, fate, m.defaults);
      if StoresStart(fate) {
        StoresStartedRun(m.w, fate, m.defaults);
      }
      ok := StartStores(fate);
      if ok {
        AuthStartedStoppable(m.w, fate);
        if Makes(F(Auth)) in fate && Starts(F(Auth)) in fate {
          AuthStartedRuns(m.w, fate);
        }
        ok := StartAuth(fate);
      }
      if ok {
        ok := InstallAll(fate);
      }
    }

    /**
      Succeeds exactly when every call it depends on does; otherwise stops again, so that nothing of the
      foundation is left.  An application with missing paths is left untouched.
     */
    method Start(paths: StartupPaths, fate: Fate) returns (ok: bool)
      requires Valid() && (!started ==> FoundationStoppable(m.w))
      modifies this, m
      ensures Valid() && started == ok && old(m.trace) <= m.trace
      ensures ok == (old(started) || (paths.Complete() && FoundationStarts(fate)))
      ensures old(started) ==> m.w == old(m.w)
      ensures !old(started) && ok ==> FoundationStoppable(m.w) && m.w.scopes == old(m.w).scopes
      ensures !old(started) && ok ==> (Audited(m.w) <==> TakesAuditSink in fate)
      ensures !old(started) ==> m.w.store == SectionsAfterStart(paths, fate, old(m.w).store, m.defaults)
      ensures !old(started) ==> m.w.answers == old(m.w).answers
      ensures !old(started) ==> m.w.services == old(m.w).services && m.w.media == old(m.w).media
      ensures !ok ==> NothingAbove(0, m.w)
    {
      if started {
        return true;
      }
      if !paths.Complete() {
        return false;
      }
      ok := StartAll(fate);
      if !ok {
        Stop();
        return;
      }
      started := true;
    }

    /** From whatever point a start has reached: nothing of the foundation is left. */
    method Stop()
      requires m.Valid() && m.rules == RULES && FoundationStoppable(m.w)
      modifies this, m
      ensures m.Valid() && !started && old(m.trace) <= m.trace
      ensures m.w == FoundationStopped(old(m.w))
    {
      m.Tell(ClearRuntime);
      FoundationRetired(m.w);
      FoundationUnneeded(m.rules, m.w, F(Auth));
      m.Retire(F(Auth));
      FoundationUnneeded(m.rules, m.w, F(AuditSink));
      m.PassiveDoesNotRun(F(AuditSink));
      m.Reset(F(AuditSink));
      FoundationUnneeded(m.rules, m.w, F(EventBus));
      m.Retire(F(EventBus));
      FoundationUnneeded(m.rules, m.w, F(ConfigStore));
      m.Retire(F(ConfigStore));
      FoundationUnneeded(m.rules, m.w, F(Logger));
      m.Retire(F(Logger));
      started := false;
    }
  }
}
