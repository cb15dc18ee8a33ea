/**
  Objects that are made, started, stopped and destroyed, with raw pointers between them: at most one
  object of each kind at a time.  `Do` is one primitive step, `Allowed` the local condition under which
  it is harmless, and `Safe` what then holds for ever.  Which kinds may point at which is a parameter.

  A pointer is the kind of its target and the target's identity, so a pointer to a destroyed object
  never passes for one to its successor.
 */
module ObjectGraphs {
  import opened Wrappers

  /** `refs` holds the raw pointers of the object, by kind of target. */
  datatype Obj<K, P> = Obj(id: nat, running: bool, refs: map<K, nat>, payload: P)

  datatype Graph<K, P> = Graph(nextId: nat, objs: map<K, Obj<K, P>>)

  /**
    `mayHold(h, t)`: an `h` may point at a `t`; `mustHold(h, t)`: every `h` does; `takes(h, t)`: an `h` does
    if there is a `t` when it is made; `mustRun(h, t)`: the target must run while the holder runs; `outlived(t)`: a stopped holder may be left pointing at a
    destroyed `t`; `passive(t)`: a `t` is never started.
   */
  datatype Rules<!K> = Rules(mayHold: (K, K) -> bool, mustHold: (K, K) -> bool, takes: (K, K) -> bool,
                             mustRun: (K, K) -> bool, outlived: K -> bool, passive: K -> bool)

  predicate Alive<K(==), P>(g: Graph<K, P>, kind: K, id: nat) {
    kind in g.objs && g.objs[kind].id == id
  }

  predicate Running<K(==), P>(g: Graph<K, P>, kind: K) {
    kind in g.objs && g.objs[kind].running
  }

  /** The pointer of `holder` to `target` is good: it is not dangling, and its target runs if it must. */
  ghost predicate RefOk<K(!new), P>(rules: Rules<K>, g: Graph<K, P>, holder: K, target: K)
    requires holder in g.objs && target in g.objs[holder].refs
  {
    var obj := g.objs[holder];
    && rules.mayHold(holder, target)
    && obj.refs[target] < g.nextId
    && (Alive(g, target, obj.refs[target]) || (rules.outlived(target) && !obj.running))
    && (obj.running && rules.mustRun(holder, target) ==> Running(g, target))
  }

  /** Identities are handed out once. */
  ghost predicate IdsUsed<K(!new), P>(g: Graph<K, P>) {
    forall kind | kind in g.objs :: g.objs[kind].id < g.nextId
  }

  ghost predicate Wired<K(!new), P>(rules: Rules<K>, g: Graph<K, P>) {
    forall holder, target | holder in g.objs && rules.mustHold(holder, target) :: target in g.objs[holder].refs
  }

  /** Whoever takes a pointer that is to be had does hold it. */
  ghost predicate Furnished<K(!new), P>(rules: Rules<K>, g: Graph<K, P>) {
    forall holder, target | holder in g.objs && target in g.objs && rules.takes(holder, target) ::
      target in g.objs[holder].refs
  }

  ghost predicate RefsGood<K(!new), P>(rules: Rules<K>, g: Graph<K, P>) {
    forall holder, target | holder in g.objs && target in g.objs[holder].refs :: RefOk(rules, g, holder, target)
  }

  ghost predicate PassiveStill<K(!new), P>(rules: Rules<K>, g: Graph<K, P>) {
    forall kind | kind in g.objs && rules.passive(kind) :: !g.objs[kind].running
  }

  ghost predicate Safe<K(!new), P>(rules: Rules<K>, g: Graph<K, P>) {
    IdsUsed(g) && Wired(rules, g) && Furnished(rules, g) && RefsGood(rules, g) && PassiveStill(rules, g)
  }

  datatype Op<K, P> =
    | Create(kind: K, refs: map<K, nat>, payload: P)
    | Start(kind: K)
    | Stop(kind: K)
    | Destroy(kind: K)
    | Link(holder: K, target: K)
    | Unlink(holder: K, target: K)
    | TakeOptions(kind: K, payload: P)

  ghost predicate Allowed<K(!new), P>(rules: Rules<K>, g: Graph<K, P>, op: Op<K, P>) {
    match op
    case Create(kind, refs, payload) =>
      && kind !in g.objs
      && (forall target | rules.mustHold(kind, target) :: target in refs)
      && (forall target | rules.takes(kind, target) && target in g.objs :: target in refs)
      && (forall holder | rules.takes(holder, kind) :: holder !in g.objs && holder != kind)
      && (forall target | target in refs :: rules.mayHold(kind, target) && Alive(g, target, refs[target]))
    case Start(kind) =>
      && kind in g.objs && !rules.passive(kind)
      && forall target | target in g.objs[kind].refs ::
           Alive(g, target, g.objs[kind].refs[target]) && (rules.mustRun(kind, target) ==> g.objs[target].running)
    case Stop(kind) =>
      && kind in g.objs
      && forall holder | rules.mayHold(holder, kind) && Running(g, holder) && kind in g.objs[holder].refs ::
           !rules.mustRun(holder, kind)
    case Destroy(kind) =>
      && kind in g.objs && !g.objs[kind].running
      && forall holder | rules.mayHold(holder, kind) && holder in g.objs && kind in g.objs[holder].refs ::
           rules.outlived(kind) && !g.objs[holder].running
    case Link(holder, target) =>
      && holder in g.objs && target in g.objs && rules.mayHold(holder, target)
      && (g.objs[holder].running && rules.mustRun(holder, target) ==> g.objs[target].running)
    case Unlink(holder, target) => holder in g.objs && !rules.mustHold(holder, target) && !rules.takes(holder, target)
    case TakeOptions(kind, payload) => kind in g.objs
  }

  /** The step mentions objects that exist. */
  predicate Possible<K(==), P>(g: Graph<K, P>, op: Op<K, P>) {
    match op
    case Create(_, _, _) => true
    case Start(kind) => kind in g.objs
    case Stop(kind) => kind in g.objs
    case Destroy(kind) => true
    case Link(holder, target) => holder in g.objs && target in g.objs
    case Unlink(holder, _) => holder in g.objs
    case TakeOptions(kind, _) => kind in g.objs
  }

  function Do<K(==), P>(g: Graph<K, P>, op: Op<K, P>): Graph<K, P>
    requires Possible(g, op)
  {
    match op
    case Create(kind, refs, payload) => Graph(g.nextId + 1, g.objs[kind := Obj(g.nextId, false, refs, payload)])
    case Start(kind) => g.(objs := g.objs[kind := g.objs[kind].(running := true)])
    case Stop(kind) => g.(objs := g.objs[kind := g.objs[kind].(running := false)])
    case Destroy(kind) => g.(objs := g.objs - {kind})
    case Link(holder, target) =>
      g.(objs := g.objs[holder := g.objs[holder].(refs := g.objs[holder].refs[target := g.objs[target].id])])
    case Unlink(holder, target) =>
      g.(objs := g.objs[holder := g.objs[holder].(refs := g.objs[holder].refs - {target})])
    case TakeOptions(kind, payload) => g.(objs := g.objs[kind := g.objs[kind].(payload := payload)])
  }

  // ----- Every allowed step is safe -----

  lemma CreateRefs<K(!new), P>(rules: Rules<K>, g: Graph<K, P>, kind: K, refs: map<K, nat>, payload: P)
    requires IdsUsed(g) && RefsGood(rules, g) && Allowed(rules, g, Create(kind, refs, payload))
    ensures RefsGood(rules, Do(g, Create(kind, refs, payload)))
  {
    var g' := Do(g, Create(kind, refs, payload));
    forall h, t | h in g'.objs && t in g'.objs[h].refs
      ensures RefOk(rules, g', h, t)
    {
      if h != kind {
        assert RefOk(rules, g, h, t);
      }
    }
  }

  lemma StartRefs<K(!new), P>(rules: Rules<K>, g: Graph<K, P>, kind: K)
    requires RefsGood(rules, g) && Allowed(rules, g, Start(kind))
    ensures RefsGood(rules, Do(g, Start(kind)))
  {
    var g' := Do(g, Start(kind));
    forall h, t | h in g'.objs && t in g'.objs[h].refs
      ensures RefOk(rules, g', h, t)
    {
      assert RefOk(rules, g, h, t);
    }
  }

  lemma StopRefs<K(!new), P>(rules: Rules<K>, g: Graph<K, P>, kind: K)
    requires RefsGood(rules, g) && Allowed(rules, g, Stop(kind))
    ensures RefsGood(rules, Do(g, Stop(kind)))
  {
    var g' := Do(g, Stop(kind));
    forall h, t | h in g'.objs && t in g'.objs[h].refs
      ensures RefOk(rules, g', h, t)
    {
      assert RefOk(rules, g, h, t);
    }
  }

  lemma DestroyRefs<K(!new), P>(rules: Rules<K>, g: Graph<K, P>, kind: K)
    requires RefsGood(rules, g) && Allowed(rules, g, Destroy(kind))
    ensures RefsGood(rules, Do(g, Destroy(kind)))
  {
    var g' := Do(g, Destroy(kind));
    forall h, t | h in g'.objs && t in g'.objs[h].refs
      ensures RefOk(rules, g', h, t)
    {
      assert RefOk(rules, g, h, t);
    }
  }

  lemma RelinkRefs<K(!new), P>(rules: Rules<K>, g: Graph<K, P>, op: Op<K, P>)
    requires op.Link? || op.Unlink? || op.TakeOptions?
    requires IdsUsed(g) && RefsGood(rules, g) && Allowed(rules, g, op)
    ensures RefsGood(rules, Do(g, op))
  {
    var g' := Do(g, op);
    forall h, t | h in g'.objs && t in g'.objs[h].refs
      ensures RefOk(rules, g', h, t)
    {
      if !(op.Link? && h == op.holder && t == op.target) {
        assert RefOk(rules, g, h, t);
      }
    }
  }

  lemma DoWired<K(!new), P>(rules: Rules<K>, g: Graph<K, P>, op: Op<K, P>)
    requires Wired(rules, g) && Allowed(rules, g, op)
    ensures Wired(rules, Do(g, op))
  {
  }

  lemma DoFurnished<K(!new), P>(rules: Rules<K>, g: Graph<K, P>, op: Op<K, P>)
    requires Furnished(rules, g) && Allowed(rules, g, op)
    ensures Furnished(rules, Do(g, op))
  {
  }

  lemma DoPassiveStill<K(!new), P>(rules: Rules<K>, g: Graph<K, P>, op: Op<K, P>)
    requires PassiveStill(rules, g) && Allowed(rules, g, op)
    ensures PassiveStill(rules, Do(g, op))
  {
  }

  /** The one theorem about steps: what is allowed keeps the objects safe. */
  lemma DoSafe<K(!new), P>(rules: Rules<K>, g: Graph<K, P>, op: Op<K, P>)
    requires Safe(rules, g) && Allowed(rules, g, op)
    ensures Safe(rules, Do(g, op))
  {
    DoWired(rules, g, op);
    DoFurnished(rules, g, op);
    DoPassiveStill(rules, g, op);
    match op
    case Create(kind, refs, payload) => CreateRefs(rules, g, kind, refs, payload);
    case Start(kind) => StartRefs(rules, g, kind);
    case Stop(kind) => StopRefs(rules, g, kind);
    case Destroy(kind) => DestroyRefs(rules, g, kind);
    case _ => RelinkRefs(rules, g, op);
  }

  /** A new object whose pointers are good and whose targets run as they must may be started. */
  lemma MadeMayStart<K(!new), P>(rules: Rules<K>, g: Graph<K, P>, kind: K, refs: map<K, nat>, payload: P)
    requires Allowed(rules, g, Create(kind, refs, payload)) && !rules.passive(kind)
    requires forall target | target in refs && rules.mustRun(kind, target) :: Running(g, target)
    ensures Allowed(rules, Do(g, Create(kind, refs, payload)), Start(kind))
  {
  }

  // ----- Tables of pointers outside the objects -----

  ghost predicate TableLive<K(!new), P>(g: Graph<K, P>, table: map<K, nat>) {
    forall kind | kind in table :: Alive(g, kind, table[kind])
  }

  ghost predicate TableRunning<K(!new), P>(g: Graph<K, P>, table: map<K, nat>) {
    forall kind | kind in table :: Alive(g, kind, table[kind]) && g.objs[kind].running
  }

  lemma DoKeepsLiveTable<K(!new), P>(rules: Rules<K>, g: Graph<K, P>, op: Op<K, P>, table: map<K, nat>)
    requires TableLive(g, table) && Allowed(rules, g, op)
    requires op.Destroy? ==> op.kind !in table
    ensures TableLive(Do(g, op), table)
  {
  }

  lemma DoKeepsRunningTable<K(!new), P>(rules: Rules<K>, g: Graph<K, P>, op: Op<K, P>, table: map<K, nat>)
    requires TableRunning(g, table) && Allowed(rules, g, op)
    requires op.Destroy? || op.Stop? ==> op.kind !in table
    ensures TableRunning(Do(g, op), table)
  {
  }

  // ----- What safety means -----

  /** Running objects are closed under the pointers they must hold. */
  lemma RunningClosed<K(!new), P>(rules: Rules<K>, g: Graph<K, P>, kind: K, needed: K)
    requires Safe(rules, g) && Running(g, kind) && rules.mustHold(kind, needed) && rules.mustRun(kind, needed)
    ensures Running(g, needed)
  {
    assert RefOk(rules, g, kind, needed);
  }

  /** Only a stopped object can hold a dangling pointer, and only to a kind that may be outlived. */
  lemma DanglingOnlyWhenStopped<K(!new), P>(rules: Rules<K>, g: Graph<K, P>, holder: K, target: K)
    requires Safe(rules, g) && holder in g.objs && target in g.objs[holder].refs
    requires !Alive(g, target, g.objs[holder].refs[target])
    ensures !g.objs[holder].running && rules.outlived(target)
  {
    assert RefOk(rules, g, holder, target);
  }
}
