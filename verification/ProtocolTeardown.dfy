/**
  Stopping the protocol services, on values.  The services are stopped first, then the socket layer is
  destroyed under them, and only then are the services destroyed.
 */
module ProtocolTeardown {
  import opened Wrappers
  import opened ObjectGraphs
  import opened Lifetimes
  import opened Machines
  import opened ProtocolServices

  /** The outcome of calling Stop on an object, if it is there. */
  function HaltedIf(w: World, kind: Kind): World {
    if kind in w.graph.objs then Halted(w, kind) else w
  }

  function Unlisted(w: World): World {
    w.(services := w.services - {P(HttpService)} - {P(OnvifService)} - {P(WebrtcService)} - {P(RtspService)} - {P(NetStat)})
  }

  function ServicesHalted(w: World): World {
    HaltedIf(HaltedIf(HaltedIf(HaltedIf(HaltedIf(w, P(NetStat)), P(HttpService)), P(OnvifService)), P(WebrtcService)),
             P(RtspService))
  }

  function SocketsDropped(w: World): World {
    w.(graph := Graph(w.graph.nextId, w.graph.objs - {P(SocketIo)}), runtime := w.runtime - {P(SocketIo)})
  }

  function ServicesReset(w: World): World {
    Retired(Retired(Retired(Retired(Retired(w, P(HttpService)), P(NetStat)), P(OnvifService)), P(WebrtcService)),
            P(RtspService))
  }

  const PROTOCOL_KINDS: set<Kind> :=
    {P(SocketIo), P(RtspService), P(WebrtcService), P(OnvifService), P(NetStat), P(HttpService)}

  /** The outcome of stopping: the callback loop is kept, stopped. */
  function ProtocolStopped(w: World): World {
    var objs := w.graph.objs - PROTOCOL_KINDS;
    w.(graph := Graph(w.graph.nextId,
                      if P(CallbackLoop) in objs
                      then objs[P(CallbackLoop) := objs[P(CallbackLoop)].(running := false)]
                      else objs),
       runtime := w.runtime - {P(SocketIo)}, services := map[])
  }

  lemma HaltedIfAt(w: World, kind: Kind, other: Kind)
    ensures other in HaltedIf(w, kind).graph.objs <==> other in w.graph.objs
    ensures other in w.graph.objs ==>
              HaltedIf(w, kind).graph.objs[other] ==
              if other == kind then w.graph.objs[other].(running := false) else w.graph.objs[other]
    ensures HaltedIf(w, kind) == w.(graph := HaltedIf(w, kind).graph) && HaltedIf(w, kind).graph.nextId == w.graph.nextId
  {
  }

  /** Stopping the services changes nothing but whether they run. */
  lemma ServicesHaltedAt(w: World, other: Kind)
    ensures other in ServicesHalted(w).graph.objs <==> other in w.graph.objs
    ensures other in w.graph.objs ==>
              ServicesHalted(w).graph.objs[other] ==
              if ProtocolService(other) then w.graph.objs[other].(running := false) else w.graph.objs[other]
    ensures ServicesHalted(w) == w.(graph := ServicesHalted(w).graph) && ServicesHalted(w).graph.nextId == w.graph.nextId
  {
    var w1 := HaltedIf(w, P(NetStat));
    var w2 := HaltedIf(w1, P(HttpService));
    var w3 := HaltedIf(w2, P(OnvifService));
    var w4 := HaltedIf(w3, P(WebrtcService));
    HaltedIfAt(w, P(NetStat), other);
    HaltedIfAt(w1, P(HttpService), other);
    HaltedIfAt(w2, P(OnvifService), other);
    HaltedIfAt(w3, P(WebrtcService), other);
    HaltedIfAt(w4, P(RtspService), other);
  }

  lemma ServicesResetAre(w: World)
    ensures ServicesReset(w) ==
            w.(graph := Graph(w.graph.nextId, w.graph.objs - {P(HttpService), P(NetStat), P(OnvifService), P(WebrtcService), P(RtspService)}))
  {
    assert w.graph.objs - {P(HttpService)} - {P(NetStat)} - {P(OnvifService)} - {P(WebrtcService)} - {P(RtspService)} ==
           w.graph.objs - {P(HttpService), P(NetStat), P(OnvifService), P(WebrtcService), P(RtspService)};
  }

  /** The whole of Stop but for the scopes, as the composition of its stages. */
  function TornDown(w: World): World {
    ServicesReset(HaltedIf(SocketsDropped(ServicesHalted(Unlisted(w))), P(CallbackLoop))).(services := map[])
  }

  lemma SocketsDroppedAt(w: World, other: Kind)
    ensures other in SocketsDropped(w).graph.objs <==> other in w.graph.objs && other != P(SocketIo)
    ensures other in SocketsDropped(w).graph.objs ==> SocketsDropped(w).graph.objs[other] == w.graph.objs[other]
  {
  }

  lemma ServicesResetAt(w: World, other: Kind)
    ensures other in ServicesReset(w).graph.objs <==> other in w.graph.objs && !ProtocolService(other)
    ensures other in ServicesReset(w).graph.objs ==> ServicesReset(w).graph.objs[other] == w.graph.objs[other]
  {
    ServicesResetAre(w);
  }

  lemma ProtocolStoppedAt(w: World, other: Kind)
    ensures other in ProtocolStopped(w).graph.objs <==>
            other in w.graph.objs && !ProtocolService(other) && other != P(SocketIo)
    ensures other in ProtocolStopped(w).graph.objs ==>
              ProtocolStopped(w).graph.objs[other] ==
              if other == P(CallbackLoop) then w.graph.objs[other].(running := false) else w.graph.objs[other]
  {
  }

  lemma TornDownAt(w: World, other: Kind)
    ensures other in TornDown(w).graph.objs <==> other in ProtocolStopped(w).graph.objs
    ensures other in TornDown(w).graph.objs ==> TornDown(w).graph.objs[other] == ProtocolStopped(w).graph.objs[other]
  {
    var w1 := Unlisted(w);
    ServicesHaltedAt(w1, other);
    var w2 := ServicesHalted(w1);
    SocketsDroppedAt(w2, other);
    var w3 := SocketsDropped(w2);
    HaltedIfAt(w3, P(CallbackLoop), other);
    var w4 := HaltedIf(w3, P(CallbackLoop));
    ServicesResetAt(w4, other);
    ProtocolStoppedAt(w, other);
    assert TornDown(w).graph == ServicesReset(w4).graph;
  }

  lemma SameObjects(w: World)
    ensures TornDown(w).graph.objs == ProtocolStopped(w).graph.objs
  {
    forall other: Kind
      ensures other in TornDown(w).graph.objs <==> other in ProtocolStopped(w).graph.objs
      ensures other in TornDown(w).graph.objs ==> TornDown(w).graph.objs[other] == ProtocolStopped(w).graph.objs[other]
    {
      TornDownAt(w, other);
    }
  }

  lemma SameTables(w: World)
    ensures TornDown(w) == ProtocolStopped(w).(graph := TornDown(w).graph)
    ensures TornDown(w).graph.nextId == w.graph.nextId
  {
    var w1 := Unlisted(w);
    ServicesHaltedAt(w1, P(CallbackLoop));
    var w2 := SocketsDropped(ServicesHalted(w1));
    HaltedIfAt(w2, P(CallbackLoop), P(CallbackLoop));
    ServicesResetAre(HaltedIf(w2, P(CallbackLoop)));
  }

  lemma TornDownIsStopped(w: World)
    ensures TornDown(w) == ProtocolStopped(w)
  {
    SameObjects(w);
    SameTables(w);
  }

  // ----- Why each step is permitted -----

  /** The services that other services read from, and who reads. */
  predicate Reads(holder: Kind, kind: ProtocolKind) {
    (holder == P(HttpService) && (kind == RtspService || kind == WebrtcService || kind == NetStat)) ||
    (holder == P(OnvifService) && kind == RtspService)
  }

  lemma ReadersOnly(holder: Kind, kind: ProtocolKind)
    requires IsService(kind) && MayHold(holder, P(kind))
    ensures Reads(holder, kind)
  {
  }

  /** Nobody who must not outrun the service runs. */
  lemma ServiceIdle(rules: Rules<Kind>, w: World, kind: ProtocolKind)
    requires rules == RULES && IsService(kind) && P(kind) !in w.services
    requires kind == WebrtcService || kind == RtspService ==> !Running(w.graph, P(HttpService))
    requires kind == RtspService ==> !Running(w.graph, P(OnvifService))
    ensures Idle(rules, w, P(kind))
  {
    forall holder | rules.mayHold(holder, P(kind))
      ensures Reads(holder, kind)
    {
      ReadersOnly(holder, kind);
    }
  }

  lemma ServiceUnneeded(rules: Rules<Kind>, w: World, kind: ProtocolKind)
    requires rules == RULES && IsService(kind) && P(kind) !in w.services && P(kind) !in w.runtime
    requires kind == WebrtcService || kind == RtspService || kind == NetStat ==> P(HttpService) !in w.graph.objs
    requires kind == RtspService ==> P(OnvifService) !in w.graph.objs
    ensures Unneeded(rules, w, P(kind))
  {
    forall holder | rules.mayHold(holder, P(kind))
      ensures Reads(holder, kind)
    {
      ReadersOnly(holder, kind);
    }
  }

  /** No protocol service runs. */
  predicate Quiet(w: World) {
    && !Running(w.graph, P(NetStat)) && !Running(w.graph, P(HttpService)) && !Running(w.graph, P(OnvifService))
    && !Running(w.graph, P(WebrtcService)) && !Running(w.graph, P(RtspService))
  }

  lemma QuietService(w: World, kind: Kind)
    requires Quiet(w) && ProtocolService(kind)
    ensures !Running(w.graph, kind)
  {
  }

  lemma SocketHolders(holder: Kind)
    requires MayHold(holder, P(SocketIo))
    ensures ProtocolService(holder)
  {
  }

  lemma SocketsIdle(rules: Rules<Kind>, w: World)
    requires rules == RULES && Quiet(w) && P(SocketIo) !in w.services
    ensures Idle(rules, w, P(SocketIo))
  {
    forall holder | rules.mayHold(holder, P(SocketIo))
      ensures !Running(w.graph, holder)
    {
      SocketHolders(holder);
      QuietService(w, holder);
    }
  }

  lemma SocketsMayGo(rules: Rules<Kind>, w: World)
    requires rules == RULES && Quiet(w) && P(SocketIo) in w.graph.objs && !Running(w.graph, P(SocketIo))
    requires Unreferenced(w, P(SocketIo))
    ensures MayObject(rules, w, Destroy(P(SocketIo)))
  {
    forall holder | rules.mayHold(holder, P(SocketIo)) && holder in w.graph.objs && P(SocketIo) in w.graph.objs[holder].refs
      ensures rules.outlived(P(SocketIo)) && !w.graph.objs[holder].running
    {
      SocketHolders(holder);
      QuietService(w, holder);
    }
  }

  function SocketsHalted(w: World): World
    requires P(SocketIo) in w.graph.objs
  {
    Halted(w, P(SocketIo)).(runtime := w.runtime - {P(SocketIo)})
  }

  lemma DropPlan(rules: Rules<Kind>, w: World)
    requires rules == RULES && Quiet(w) && P(SocketIo) in w.graph.objs && P(SocketIo) !in w.services
    ensures MayObject(rules, SocketsHalted(w), Destroy(P(SocketIo)))
    ensures NextObject(SocketsHalted(w), Destroy(P(SocketIo))) == SocketsDropped(w)
  {
    var halted := SocketsHalted(w);
    assert Quiet(halted);
    SocketsMayGo(rules, halted);
    assert halted.graph.objs - {P(SocketIo)} == w.graph.objs - {P(SocketIo)};
  }

  lemma LoopIdle(rules: Rules<Kind>, w: World)
    requires rules == RULES && P(SocketIo) !in w.graph.objs && P(CallbackLoop) !in w.services
    ensures Idle(rules, w, P(CallbackLoop))
  {
    forall holder | rules.mayHold(holder, P(CallbackLoop))
      ensures holder == P(SocketIo)
    {
    }
  }

  lemma HaltedQuiet(w: World)
    ensures Quiet(ServicesHalted(w))
  {
    ServicesHaltedAt(w, P(NetStat));
    ServicesHaltedAt(w, P(HttpService));
    ServicesHaltedAt(w, P(OnvifService));
    ServicesHaltedAt(w, P(WebrtcService));
    ServicesHaltedAt(w, P(RtspService));
  }

  /** The two pointer tables hold only what they are meant for. */
  lemma TablesKeepToKinds(w: World)
    requires WorldSafe(RULES, w)
    ensures forall kind | kind in w.services :: ProtocolService(kind)
    ensures forall kind: ProtocolKind | P(kind) in w.runtime :: kind == SocketIo
    ensures P(SocketIo) !in w.graph.objs ==> P(SocketIo) !in w.runtime
  {
  }

  /** HTTP runs and reads statistics from an object that is there but does not run. */
  predicate ReadsStoppedStatistics(w: World) {
    && Running(w.graph, P(HttpService)) && P(NetStat) in w.graph.objs[P(HttpService)].refs
    && Alive(w.graph, P(NetStat), w.graph.objs[P(HttpService)].refs[P(NetStat)]) && !Running(w.graph, P(NetStat))
  }

  /** Stopping as far as the point at which the statistics have stopped and HTTP has not. */
  function StatisticsHalted(w: World): World {
    HaltedIf(Unlisted(w), P(NetStat))
  }

  /** At this point of a stop HTTP reads stopped statistics if and only if HTTP runs when the stop begins. */
  lemma HttpOutrunsStatistics(w: World)
    requires WorldSafe(RULES, w)
    ensures ReadsStoppedStatistics(StatisticsHalted(w)) <==> Running(w.graph, P(HttpService))
  {
    HaltedIfAt(Unlisted(w), P(NetStat), P(HttpService));
    HaltedIfAt(Unlisted(w), P(NetStat), P(NetStat));
    if Running(w.graph, P(HttpService)) {
      HttpHoldsStatistics(RULES, w);
    }
  }

  lemma HttpHoldsStatistics(rules: Rules<Kind>, w: World)
    requires rules == RULES && Safe(rules, w.graph) && Running(w.graph, P(HttpService))
    ensures P(NetStat) in w.graph.objs[P(HttpService)].refs
    ensures Alive(w.graph, P(NetStat), w.graph.objs[P(HttpService)].refs[P(NetStat)])
  {
    assert rules.mustHold(P(HttpService), P(NetStat));
    assert RefOk(rules, w.graph, P(HttpService), P(NetStat));
  }

  lemma NoSocketsToDrop(w: World)
    requires WorldSafe(RULES, w) && P(SocketIo) !in w.graph.objs
    ensures SocketsDropped(w) == w
  {
    TablesKeepToKinds(w);
    assert w.graph.objs - {P(SocketIo)} == w.graph.objs;
    assert w.runtime - {P(SocketIo)} == w.runtime;
  }

  /** Some object holds a pointer to an object that is gone. */
  ghost predicate Dangles(w: World) {
    exists holder, target :: Dangling(w, holder, target)
  }

  predicate Dangling(w: World, holder: Kind, target: Kind) {
    && holder in w.graph.objs && target in w.graph.objs[holder].refs
    && !Alive(w.graph, target, w.graph.objs[holder].refs[target])
  }

  /** Stopping as far as the point at which the socket layer has gone and the services have not. */
  function HalfTornDown(w: World): World {
    SocketsDropped(ServicesHalted(Unlisted(w)))
  }

  lemma HalfTornDownAt(w: World, kind: Kind)
    ensures kind in HalfTornDown(w).graph.objs <==> kind in w.graph.objs && kind != P(SocketIo)
    ensures kind in HalfTornDown(w).graph.objs ==>
              && HalfTornDown(w).graph.objs[kind].refs == w.graph.objs[kind].refs
              && HalfTornDown(w).graph.objs[kind].id == w.graph.objs[kind].id
  {
    ServicesHaltedAt(Unlisted(w), kind);
    SocketsDroppedAt(ServicesHalted(Unlisted(w)), kind);
  }

  lemma ServiceHoldsSockets(rules: Rules<Kind>, w: World, kind: ProtocolKind)
    requires rules == RULES && Wired(rules, w.graph) && IsService(kind) && P(kind) in w.graph.objs
    ensures P(SocketIo) in w.graph.objs[P(kind)].refs
  {
    assert rules.mustHold(P(kind), P(SocketIo));
  }

  lemma ServiceDangles(w: World, kind: ProtocolKind)
    requires WorldSafe(RULES, w) && IsService(kind) && P(kind) in w.graph.objs
    ensures Dangling(HalfTornDown(w), P(kind), P(SocketIo))
  {
    ServiceHoldsSockets(RULES, w, kind);
    HalfTornDownAt(w, P(kind));
    HalfTornDownAt(w, P(SocketIo));
  }

  lemma OnlyServicesDangle(w: World, holder: Kind, target: Kind)
    requires WorldSafe(RULES, w) && Dangling(HalfTornDown(w), holder, target)
    ensures ProtocolService(holder) && holder in w.graph.objs
  {
    HalfTornDownAt(w, holder);
    HalfTornDownAt(w, target);
    assert RefOk(RULES, w.graph, holder, target);
    if Alive(w.graph, target, w.graph.objs[holder].refs[target]) {
      assert target == P(SocketIo);
      SocketHolders(holder);
    } else {
      DanglingOnlyToSockets(w, holder, target);
    }
  }

  /** A pointer dangles at this point of a stop if and only if there is a protocol service to be stopped. */
  lemma DanglesIffServicePresent(w: World)
    requires WorldSafe(RULES, w)
    ensures Dangles(HalfTornDown(w)) <==> exists kind: ProtocolKind :: IsService(kind) && P(kind) in w.graph.objs
  {
    if kind: ProtocolKind :| IsService(kind) && P(kind) in w.graph.objs {
      ServiceDangles(w, kind);
    }
    if Dangles(HalfTornDown(w)) {
      var holder, target :| Dangling(HalfTornDown(w), holder, target);
      OnlyServicesDangle(w, holder, target);
      assert holder.P? && IsService(holder.p);
    }
  }

  lemma UnlistedIsEmpty(w: World)
    requires WorldSafe(RULES, w)
    ensures Unlisted(w).services == map[]
  {
    forall kind | kind in w.services
      ensures kind in {P(HttpService), P(OnvifService), P(WebrtcService), P(RtspService), P(NetStat)}
    {
      TablesKeepToKinds(w);
    }
    assert Unlisted(w).services.Keys == {};
  }

  lemma SilencedIsQuiet(w: World)
    requires WorldSafe(RULES, w)
    ensures ServicesHalted(Unlisted(w)).services == map[] && Quiet(ServicesHalted(Unlisted(w)))
  {
    UnlistedIsEmpty(w);
    HaltedQuiet(Unlisted(w));
    ServicesHaltedAt(Unlisted(w), P(CallbackLoop));
  }

  lemma OnlyLoopIsNeither(kind: ProtocolKind)
    requires !IsService(kind) && kind != SocketIo
    ensures kind == CallbackLoop
  {
  }

  /** The callback loop points at nothing, so it may be started again. */
  lemma LoopMayStart(rules: Rules<Kind>, w: World)
    requires rules == RULES && WorldSafe(rules, w) && P(CallbackLoop) in w.graph.objs
    ensures MayObject(rules, w, Op.Start(P(CallbackLoop)))
  {
    forall target | target in w.graph.objs[P(CallbackLoop)].refs
      ensures false
    {
      LoopHoldsNothing(rules, w, target);
    }
  }

  lemma LoopHoldsNothing(rules: Rules<Kind>, w: World, target: Kind)
    requires rules == RULES && WorldSafe(rules, w) && P(CallbackLoop) in w.graph.objs
    ensures target !in w.graph.objs[P(CallbackLoop)].refs
  {
    if target in w.graph.objs[P(CallbackLoop)].refs {
      assert RefOk(rules, w.graph, P(CallbackLoop), target);
      LoopHolds(target);
    }
  }

  lemma LoopHolds(target: Kind)
    ensures !MayHold(P(CallbackLoop), target)
  {
  }

  /** No protocol service and no socket layer is left; the callback loop is stopped. */
  predicate ProtocolDown(w: World) {
    && P(SocketIo) !in w.graph.objs && P(RtspService) !in w.graph.objs && P(WebrtcService) !in w.graph.objs
    && P(OnvifService) !in w.graph.objs && P(NetStat) !in w.graph.objs && P(HttpService) !in w.graph.objs
    && !Running(w.graph, P(CallbackLoop)) && w.services == map[] && P(SocketIo) !in w.runtime
  }

  lemma StoppedIsDown(w: World)
    ensures ProtocolDown(ProtocolStopped(w)) && NothingAbove(2, ProtocolStopped(w))
  {
    forall kind | kind in ProtocolStopped(w).graph.objs
      ensures !kind.P? || (kind == P(CallbackLoop) && !ProtocolStopped(w).graph.objs[kind].running)
    {
      ProtocolStoppedAt(w, kind);
      if kind.P? {
        OnlyLoopIsNeither(kind.p);
      }
    }
  }

  lemma QuietAfterDrop(w: World)
    requires Quiet(w)
    ensures Quiet(HaltedIf(SocketsDropped(w), P(CallbackLoop)))
  {
    var w1 := SocketsDropped(w);
    HaltedIfAt(w1, P(CallbackLoop), P(NetStat));
    HaltedIfAt(w1, P(CallbackLoop), P(HttpService));
    HaltedIfAt(w1, P(CallbackLoop), P(OnvifService));
    HaltedIfAt(w1, P(CallbackLoop), P(WebrtcService));
    HaltedIfAt(w1, P(CallbackLoop), P(RtspService));
  }
}
