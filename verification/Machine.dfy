/**
  The mutable world.  Every change goes through `Act` or `Tell`, one primitive step at a time, and the ghost
  `trace` keeps every state the world has been in; `Valid` says that all of them were safe and that each
  is one permitted step from the one before.

  A `Fate` is the set of fallible calls that succeed; all results hold for every fate.
 */
module Machines {
  import opened Wrappers
  import opened JsonValues
  import opened AppConfiguration
  import opened ConfigLoader
  import opened ObjectGraphs
  import opened Lifetimes

  datatype Call =
    | Makes(kind: Kind)         // a factory returns an object
    | Starts(kind: Kind)        // its Start succeeds
    | Installs(kind: Kind)      // Runtime accepts the pointer
    | Registers(kind: Kind)     // the service registry accepts the pointer
    | TakesAuditSink            // Auth accepts the audit sink
    | TakesFrameSink            // the device accepts the frame sink
    | RegistersMedia            // the media source registry accepts the pointer
    | PicksLoop(user: Kind)     // the socket layer picks a loop for this service
    | HasDefaultLoop(user: Kind)
    | AddsScope(scope: Section) // the configuration service accepts an unused scope

  type Fate = set<Call>

  /** The references that stand for an optional raw pointer: a null pointer is no reference. */
  function WithOptional(refs: map<Kind, nat>, w: World, kind: Kind): map<Kind, nat> {
    if kind in w.graph.objs then refs[kind := w.graph.objs[kind].id] else refs
  }

  /** No object above `layer` is left, except the callback loop, which is kept but stopped. */
  predicate NothingAbove(layer: nat, w: World) {
    forall kind | kind in w.graph.objs :: Layer(kind) <= layer || (kind == P(CallbackLoop) && !w.graph.objs[kind].running)
  }

  function WithNew(w: World, kind: Kind, refs: map<Kind, nat>, payload: Payload): World {
    w.(graph := Graph(w.graph.nextId + 1, w.graph.objs[kind := Obj(w.graph.nextId, false, refs, payload)]))
  }

  function Made(w: World, kind: Kind, refs: map<Kind, nat>, payload: Payload, fate: Fate): World {
    if Makes(kind) in fate then WithNew(w, kind, refs, payload) else w
  }

  function Halted(w: World, kind: Kind): World
    requires kind in w.graph.objs
  {
    w.(graph := Graph(w.graph.nextId, w.graph.objs[kind := w.graph.objs[kind].(running := false)]))
  }

  /** The outcome of making an object and starting it. */
  function Brought(w: World, kind: Kind, refs: map<Kind, nat>, payload: Payload, fate: Fate): World {
    if Makes(kind) !in fate then w
    else
      w.(graph := Graph(w.graph.nextId + 1,
                        w.graph.objs[kind := Obj(w.graph.nextId, (Starts(kind) in fate), refs, payload)]))
  }

  /** An object of `kind` with these pointers may be made, and started as well. */
  ghost predicate RefsReady(rules: Rules<Kind>, w: World, kind: Kind, refs: map<Kind, nat>) {
    && kind !in w.graph.objs
    && (forall target | rules.mustHold(kind, target) :: target in refs)
    && (forall target | rules.takes(kind, target) && target in w.graph.objs :: target in refs)
    && (forall holder | rules.takes(holder, kind) :: holder !in w.graph.objs && holder != kind)
    && forall target | target in refs ::
         rules.mayHold(kind, target) && Alive(w.graph, target, refs[target]) &&
         (rules.mustRun(kind, target) ==> w.graph.objs[target].running)
  }

  /** The outcome of stopping and destroying an object, if it is there. */
  function Retired(w: World, kind: Kind): World {
    w.(graph := Graph(w.graph.nextId, w.graph.objs - {kind}),
       scopes := if kind == F(ConfigStore) then {} else w.scopes)
  }

  /** Nothing points at the object of `kind` any more. */
  ghost predicate Unneeded(rules: Rules<Kind>, w: World, kind: Kind) {
    && Unreferenced(w, kind)
    && forall holder | rules.mayHold(holder, kind) && holder in w.graph.objs :: kind !in w.graph.objs[holder].refs
  }

  /** No running object needs the object of `kind` to run. */
  ghost predicate Idle(rules: Rules<Kind>, w: World, kind: Kind) {
    && kind !in w.services
    && forall holder | rules.mayHold(holder, kind) && Running(w.graph, holder) && kind in w.graph.objs[holder].refs ::
         !rules.mustRun(holder, kind)
  }

  // ----- Permitted steps -----

  lemma MayMake(rules: Rules<Kind>, w: World, kind: Kind, refs: map<Kind, nat>, payload: Payload)
    requires RefsReady(rules, w, kind, refs)
    ensures MayObject(rules, w, Create(kind, refs, payload))
    ensures NextObject(w, Create(kind, refs, payload)) == WithNew(w, kind, refs, payload)
  {
  }

  lemma MayStartMade(rules: Rules<Kind>, w: World, kind: Kind, refs: map<Kind, nat>, payload: Payload, fate: Fate)
    requires RefsReady(rules, w, kind, refs) && !rules.passive(kind)
    requires Makes(kind) in fate && Starts(kind) in fate
    ensures MayObject(rules, WithNew(w, kind, refs, payload), Start(kind))
    ensures NextObject(WithNew(w, kind, refs, payload), Start(kind)) == Brought(w, kind, refs, payload, fate)
  {
    MadeMayStart(rules, w.graph, kind, refs, payload);
  }

  lemma MayStop(rules: Rules<Kind>, w: World, kind: Kind)
    requires kind in w.graph.objs && Idle(rules, w, kind)
    ensures MayObject(rules, w, Stop(kind))
  {
  }

  lemma MayDestroy(rules: Rules<Kind>, w: World, kind: Kind)
    requires kind in w.graph.objs && !w.graph.objs[kind].running && Unneeded(rules, w, kind)
    ensures MayObject(rules, w, Destroy(kind))
  {
  }

  lemma HaltedRetired(w: World, kind: Kind)
    requires kind in w.graph.objs
    ensures Retired(Halted(w, kind), kind) == Retired(w, kind)
  {
    assert Halted(w, kind).graph.objs - {kind} == w.graph.objs - {kind};
  }

  // ----- Who may be in the way -----

  /** Pointers go from later layers to earlier ones, or stay within a layer. */
  lemma HolderLayer(holder: Kind, target: Kind)
    requires MayHold(holder, target)
    ensures holder != P(CallbackLoop) && Layer(holder) >= Layer(target)
  {
  }

  /** With nothing left above its layer, only objects of its own layer can be in the way of `kind`. */
  lemma UnneededInLayer(rules: Rules<Kind>, w: World, kind: Kind)
    requires rules == RULES
    requires NothingAbove(Layer(kind), w) && Unreferenced(w, kind)
    requires forall holder: Kind | MayHold(holder, kind) && Layer(holder) == Layer(kind) ::
               holder in w.graph.objs ==> kind !in w.graph.objs[holder].refs
    ensures Unneeded(rules, w, kind)
  {
    forall holder | rules.mayHold(holder, kind) && holder in w.graph.objs
      ensures kind !in w.graph.objs[holder].refs
    {
      HolderLayer(holder, kind);
    }
  }

  lemma NothingAboveRetired(layer: nat, w: World, kind: Kind)
    requires NothingAbove(layer, w)
    ensures NothingAbove(layer, Retired(w, kind))
  {
  }

  lemma NothingAboveMade(layer: nat, w: World, kind: Kind, refs: map<Kind, nat>, payload: Payload, fate: Fate)
    requires NothingAbove(layer, w) && Layer(kind) <= layer
    ensures NothingAbove(layer, Made(w, kind, refs, payload, fate))
    ensures NothingAbove(layer, Brought(w, kind, refs, payload, fate))
  {
  }

  /** The kinds that point at nothing they cannot do without. */
  predicate SelfContained(kind: Kind) {
    (kind.F? && kind != F(AuditSink) && kind != F(Auth)) || Platform(kind) || kind == P(CallbackLoop)
  }

  lemma SelfContainedNeedsNothing(kind: Kind, target: Kind)
    requires SelfContained(kind)
    ensures !MustHold(kind, target)
  {
  }

  /** A kind that nobody takes a pointer to, and that takes none. */
  predicate Plain(kind: Kind) {
    !DeviceComponent(kind) && !Platform(kind) && kind != P(RtspService) && kind != P(WebrtcService) &&
    kind != P(OnvifService) && kind != P(HttpService)
  }

  /** What is left to show of an object that takes no pointer and that nobody takes one to. */
  lemma PlainReady(rules: Rules<Kind>, w: World, kind: Kind, refs: map<Kind, nat>)
    requires rules == RULES && kind !in w.graph.objs && Plain(kind)
    requires forall target: Kind | MustHold(kind, target) :: target in refs
    requires forall target | target in refs ::
               MayHold(kind, target) && Alive(w.graph, target, refs[target]) &&
               (MustRun(kind, target) ==> w.graph.objs[target].running)
    ensures RefsReady(rules, w, kind, refs)
  {
    forall other: Kind
      ensures !rules.takes(kind, other) && !rules.takes(other, kind)
    {
      if Takes(kind, other) {
        WhoTakes(kind, other);
      }
      if Takes(other, kind) {
        WhoTakes(other, kind);
      }
    }
  }

  lemma NoNeeds(rules: Rules<Kind>, w: World, kind: Kind)
    requires rules == RULES && kind !in w.graph.objs && SelfContained(kind) && !Platform(kind)
    ensures RefsReady(rules, w, kind, map[])
  {
    forall target: Kind
      ensures !MustHold(kind, target)
    {
      SelfContainedNeedsNothing(kind, target);
    }
    PlainReady(rules, w, kind, map[]);
  }

  // ----- Traces -----

  ghost predicate ObjectStep(rules: Rules<Kind>, w: World, w': World, op: Op<Kind, Payload>) {
    MayObject(rules, w, op) && w' == NextObject(w, op)
  }

  ghost predicate TableStep(w: World, w': World, step: Step) {
    MayTable(w, step) && w' == NextTable(w, step)
  }

  /** One permitted primitive step leads from `w` to `w'`. */
  ghost predicate OneStep(rules: Rules<Kind>, w: World, w': World) {
    (exists op :: ObjectStep(rules, w, w', op)) || (exists step :: TableStep(w, w', step))
  }

  /** Every state is safe, and is one step from the one before. */
  ghost predicate SafeRun(rules: Rules<Kind>, trace: seq<World>) {
    forall i {:trigger WorldSafe(rules, trace[i])} :: 0 <= i < |trace| ==>
      WorldSafe(rules, trace[i]) && (i > 0 ==> OneStep(rules, trace[i - 1], trace[i]))
  }

  lemma SafeRunSnoc(rules: Rules<Kind>, trace: seq<World>, w: World)
    requires trace != [] && SafeRun(rules, trace) && WorldSafe(rules, w) && OneStep(rules, trace[|trace| - 1], w)
    ensures SafeRun(rules, trace + [w])
  {
    var longer := trace + [w];
    forall i | 0 <= i < |longer|
      ensures WorldSafe(rules, longer[i]) && (i > 0 ==> OneStep(rules, longer[i - 1], longer[i]))
    {
      if i < |trace| {
        assert longer[i] == trace[i] && WorldSafe(rules, trace[i]);
      } else {
        assert longer[i] == w;
      }
    }
  }

  lemma ObjectExtends(rules: Rules<Kind>, trace: seq<World>, op: Op<Kind, Payload>)
    requires trace != [] && SafeRun(rules, trace) && MayObject(rules, trace[|trace| - 1], op)
    ensures SafeRun(rules, trace + [NextObject(trace[|trace| - 1], op)])
  {
    assert WorldSafe(rules, trace[|trace| - 1]);
    ObjectStepSafe(rules, trace[|trace| - 1], op);
    assert ObjectStep(rules, trace[|trace| - 1], NextObject(trace[|trace| - 1], op), op);
    SafeRunSnoc(rules, trace, NextObject(trace[|trace| - 1], op));
  }

  lemma TableExtends(rules: Rules<Kind>, trace: seq<World>, step: Step)
    requires trace != [] && SafeRun(rules, trace) && MayTable(trace[|trace| - 1], step)
    ensures SafeRun(rules, trace + [NextTable(trace[|trace| - 1], step)])
  {
    assert WorldSafe(rules, trace[|trace| - 1]);
    TableStepSafe(trace[|trace| - 1], step);
    assert TableStep(trace[|trace| - 1], NextTable(trace[|trace| - 1], step), step);
    SafeRunSnoc(rules, trace, NextTable(trace[|trace| - 1], step));
  }

  /** Nothing has been made yet. */
  function EmptyWorld(store: map<Section, Json>, answers: map<string, string>): World {
    World(Graph(0, map[]), map[], map[], None, {}, store, answers)
  }

  lemma EmptyWorldSafe(rules: Rules<Kind>, store: map<Section, Json>, answers: map<string, string>)
    ensures WorldSafe(rules, EmptyWorld(store, answers))
  {
  }

  class Machine {
    ghost const rules: Rules<Kind>
    /** The sections of the default file. */
    const defaults: Store
    var w: World
    ghost var trace: seq<World>

    ghost predicate Valid()
      reads this
    {
      trace != [] && trace[|trace| - 1] == w && SafeRun(rules, trace)
    }

    constructor (initial: World, defaults: Store)
      requires WorldSafe(RULES, initial)
      ensures Valid() && rules == RULES && w == initial && this.defaults == defaults
    {
      rules := RULES;
      this.defaults := defaults;
      w := initial;
      trace := [initial];
    }

    lemma NowSafe()
      requires Valid()
      ensures WorldSafe(rules, w)
    {
      assert WorldSafe(rules, trace[|trace| - 1]);
    }

    lemma PassiveDoesNotRun(kind: Kind)
      requires Valid() && rules == RULES && Passive(kind)
      ensures !Running(w.graph, kind)
    {
      NowSafe();
      assert rules.passive(kind);
    }

    lemma ScopesNeedConfig()
      requires Valid() && F(ConfigStore) !in w.graph.objs
      ensures w.scopes == {}
    {
      NowSafe();
    }

    /** A step on one object. */
    method Act(op: Op<Kind, Payload>)
      requires Valid() && MayObject(rules, w, op)
      modifies this
      ensures Valid() && w == NextObject(old(w), op)
      ensures old(trace) <= trace
    {
      ObjectExtends(rules, trace, op);
      w := NextObject(w, op);
      trace := trace + [w];
    }

    /** A step on one of the global tables. */
    method Tell(step: Step)
      requires Valid() && MayTable(w, step)
      modifies this
      ensures Valid() && w == NextTable(old(w), step)
      ensures old(trace) <= trace
    {
      TableExtends(rules, trace, step);
      w := NextTable(w, step);
      trace := trace + [w];
    }

    /** Calls the factory of `kind`; `made` says that it returned an object. */
    method Make(kind: Kind, refs: map<Kind, nat>, payload: Payload, fate: Fate) returns (made: bool)
      requires Valid() && RefsReady(rules, w, kind, refs)
      modifies this
      ensures Valid() && old(trace) <= trace
      ensures w == Made(old(w), kind, refs, payload, fate)
      ensures made == (Makes(kind) in fate)
    {
      made := Makes(kind) in fate;
      if made {
        MayMake(rules, w, kind, refs, payload);
        Act(Create(kind, refs, payload));
      }
    }

    /** Calls the factory and then Start; `up` says that both succeeded. */
    method Bring(kind: Kind, refs: map<Kind, nat>, payload: Payload, fate: Fate) returns (up: bool)
      requires Valid() && RefsReady(rules, w, kind, refs) && !rules.passive(kind)
      modifies this
      ensures Valid() && old(trace) <= trace
      ensures w == Brought(old(w), kind, refs, payload, fate)
      ensures up == (Makes(kind) in fate && Starts(kind) in fate)
    {
      up := Make(kind, refs, payload, fate);
      up := up && Starts(kind) in fate;
      if up {
        MayStartMade(rules, old(w), kind, refs, payload, fate);
        Act(Start(kind));
      }
    }

    /** Calls Stop on an object that is there. */
    method Halt(kind: Kind)
      requires Valid() && kind in w.graph.objs && Idle(rules, w, kind)
      modifies this
      ensures Valid() && old(trace) <= trace
      ensures w == Halted(old(w), kind)
    {
      MayStop(rules, w, kind);
      Act(Stop(kind));
    }

    /** Resets the owning pointer of an object that does not run; a null pointer stays null. */
    method Reset(kind: Kind)
      requires Valid() && Unneeded(rules, w, kind) && !Running(w.graph, kind)
      modifies this
      ensures Valid() && old(trace) <= trace
      ensures w == Retired(old(w), kind)
    {
      if kind in w.graph.objs {
        MayDestroy(rules, w, kind);
        Act(Destroy(kind));
      } else {
        assert w.graph.objs - {kind} == w.graph.objs;
        if kind == F(ConfigStore) {
          ScopesNeedConfig();
        }
      }
    }

    /** Stops and destroys an object, if it is there. */
    method Retire(kind: Kind)
      requires Valid() && Unneeded(rules, w, kind)
      modifies this
      ensures Valid() && old(trace) <= trace
      ensures w == Retired(old(w), kind)
    {
      if kind in w.graph.objs {
        Halt(kind);
        HaltedRetired(old(w), kind);
      }
      Reset(kind);
    }
  }
}
