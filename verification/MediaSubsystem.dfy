/**
  The media layer.  The device and the media streams point at each other: the streams ask the device
  for keyframes, the device hands its frames to the streams.  Stopping unlinks them first.
 */
module Media {
  import opened Wrappers
  import opened ObjectGraphs
  import opened Lifetimes
  import opened Machines
  import opened Foundation
  import opened Device

  const MEDIA_KINDS: set<Kind> := {M(DeviceMedia), M(MediaStreams), M(AiService)}

  /** The calls on which the start of the media layer depends. */
  predicate MediaStarts(fate: Fate) {
    && Makes(M(DeviceMedia)) in fate
    && Makes(M(MediaStreams)) in fate && Starts(M(MediaStreams)) in fate && TakesFrameSink in fate
    && RegistersMedia in fate
    && Starts(M(DeviceMedia)) in fate
    && Makes(M(AiService)) in fate && Starts(M(AiService)) in fate
  }

  predicate MediaUp(w: World) {
    && Running(w.graph, M(DeviceMedia)) && Running(w.graph, M(MediaStreams)) && Running(w.graph, M(AiService))
    && w.media.Some? && M(MediaStreams) in w.graph.objs[M(DeviceMedia)].refs
  }

  predicate MediaAbsent(w: World) {
    M(DeviceMedia) !in w.graph.objs && M(MediaStreams) !in w.graph.objs && M(AiService) !in w.graph.objs
  }

  /** The outcome of stopping the media layer. */
  function MediaStopped(w: World): World {
    w.(graph := Graph(w.graph.nextId, w.graph.objs - MEDIA_KINDS), media := None)
  }

  /** What Stop relies on: whatever stands above the media layer is gone. */
  ghost predicate MediaStoppable(w: World) {
    NothingAbove(2, w) && w.services == map[]
  }

  /** Where a start may have got to. */
  ghost predicate MediaUnderway(w: World) {
    MediaStoppable(w) && FoundationUp(w) && DeviceUp(w)
  }

  function Touched(w: World, nextId: nat, kind: MediaKind, obj: Obj<Kind, Payload>): World {
    w.(graph := Graph(nextId, w.graph.objs[M(kind) := obj]))
  }

  lemma MediaTouched(w: World, nextId: nat, kind: MediaKind, obj: Obj<Kind, Payload>)
    requires MediaUnderway(w)
    ensures MediaUnderway(Touched(w, nextId, kind, obj))
  {
    var w' := Touched(w, nextId, kind, obj);
    assert NothingAbove(2, w');
    assert FoundationUp(w');
    assert DeviceUp(w');
  }

  lemma MediaMade(w: World, kind: MediaKind, refs: map<Kind, nat>, fate: Fate)
    requires MediaUnderway(w)
    ensures MediaUnderway(Made(w, M(kind), refs, NoPayload, fate))
    ensures MediaUnderway(Brought(w, M(kind), refs, NoPayload, fate))
  {
    MediaTouched(w, w.graph.nextId + 1, kind, Obj(w.graph.nextId, false, refs, NoPayload));
    MediaTouched(w, w.graph.nextId + 1, kind, Obj(w.graph.nextId, (Starts(M(kind)) in fate), refs, NoPayload));
  }

  // ----- The pointers of the media components -----

  function DeviceRefs(w: World): map<Kind, nat>
    requires Grounded(w)
  {
    map[F(ConfigStore) := w.graph.objs[F(ConfigStore)].id]
  }

  function StreamsRefs(w: World): map<Kind, nat>
    requires Grounded(w) && M(DeviceMedia) in w.graph.objs
  {
    map[M(DeviceMedia) := w.graph.objs[M(DeviceMedia)].id, F(EventBus) := w.graph.objs[F(EventBus)].id]
  }

  function AiRefs(w: World): map<Kind, nat>
    requires Grounded(w) && DeviceUp(w) && M(DeviceMedia) in w.graph.objs
  {
    map[F(ConfigStore) := w.graph.objs[F(ConfigStore)].id, D(AlarmService) := w.graph.objs[D(AlarmService)].id,
        M(DeviceMedia) := w.graph.objs[M(DeviceMedia)].id]
  }

  lemma DeviceNeeds(target: Kind)
    requires MustHold(M(DeviceMedia), target)
    ensures target == F(ConfigStore)
  {
  }

  lemma StreamsNeed(target: Kind)
    requires MustHold(M(MediaStreams), target)
    ensures target == M(DeviceMedia) || target == F(EventBus)
  {
  }

  lemma AiNeeds(target: Kind)
    requires MustHold(M(AiService), target)
    ensures target == F(ConfigStore) || target == D(AlarmService) || target == M(DeviceMedia)
  {
  }

  lemma DeviceReady(rules: Rules<Kind>, w: World)
    requires rules == RULES && Grounded(w) && M(DeviceMedia) !in w.graph.objs
    ensures RefsReady(rules, w, M(DeviceMedia), DeviceRefs(w))
  {
    forall target: Kind | MustHold(M(DeviceMedia), target)
      ensures target in DeviceRefs(w)
    {
      DeviceNeeds(target);
    }
    PlainReady(rules, w, M(DeviceMedia), DeviceRefs(w));
  }

  lemma StreamsReady(rules: Rules<Kind>, w: World)
    requires rules == RULES && Grounded(w) && M(DeviceMedia) in w.graph.objs && M(MediaStreams) !in w.graph.objs
    ensures RefsReady(rules, w, M(MediaStreams), StreamsRefs(w))
  {
    forall target: Kind | MustHold(M(MediaStreams), target)
      ensures target in StreamsRefs(w)
    {
      StreamsNeed(target);
    }
    PlainReady(rules, w, M(MediaStreams), StreamsRefs(w));
  }

  lemma AiReady(rules: Rules<Kind>, w: World)
    requires rules == RULES && Grounded(w) && DeviceUp(w) && Running(w.graph, M(DeviceMedia))
    requires M(AiService) !in w.graph.objs
    ensures RefsReady(rules, w, M(AiService), AiRefs(w))
  {
    forall target: Kind | MustHold(M(AiService), target)
      ensures target in AiRefs(w)
    {
      AiNeeds(target);
    }
    forall target | target in AiRefs(w)
      ensures MayHold(M(AiService), target) && Alive(w.graph, target, AiRefs(w)[target]) && w.graph.objs[target].running
    {
      AiRefGood(w, target);
    }
    PlainReady(rules, w, M(AiService), AiRefs(w));
  }

  lemma AiRefGood(w: World, target: Kind)
    requires Grounded(w) && DeviceUp(w) && Running(w.graph, M(DeviceMedia)) && target in AiRefs(w)
    ensures MayHold(M(AiService), target) && Alive(w.graph, target, AiRefs(w)[target]) && w.graph.objs[target].running
  {
  }

  // ----- Starting, on values -----

  /** The device told to hand its frames to the streams. */
  function SinkSet(w: World): World
    requires M(DeviceMedia) in w.graph.objs && M(MediaStreams) in w.graph.objs
  {
    NextObject(w, Link(M(DeviceMedia), M(MediaStreams)))
  }

  lemma FrameSinkPlan(rules: Rules<Kind>, w: World)
    requires rules == RULES && M(DeviceMedia) in w.graph.objs && Running(w.graph, M(MediaStreams))
    ensures MayObject(rules, w, Link(M(DeviceMedia), M(MediaStreams)))
  {
    assert MayHold(M(DeviceMedia), M(MediaStreams));
  }

  lemma DeviceStartPlan(rules: Rules<Kind>, w: World)
    requires rules == RULES && Grounded(w) && DeviceWired(w)
    ensures MayObject(rules, w, Op.Start(M(DeviceMedia)))
  {
  }

  /** The device points at the configuration service and at running streams. */
  predicate DeviceWired(w: World) {
    && Grounded(w) && M(DeviceMedia) in w.graph.objs && Running(w.graph, M(MediaStreams))
    && w.graph.objs[M(DeviceMedia)].refs == DeviceRefs(w)[M(MediaStreams) := w.graph.objs[M(MediaStreams)].id]
  }

  function DeviceMade(w: World, fate: Fate): (after: World)
    requires Grounded(w)
    ensures Grounded(after)
  {
    Made(w, M(DeviceMedia), DeviceRefs(w), NoPayload, fate)
  }

  function StreamsBrought(w: World, fate: Fate): World
    requires Grounded(w) && M(DeviceMedia) in w.graph.objs
  {
    Brought(w, M(MediaStreams), StreamsRefs(w), NoPayload, fate)
  }

  function StreamsStarted(w: World, fate: Fate): World
    requires Grounded(w)
  {
    var w1 := DeviceMade(w, fate);
    if Makes(M(DeviceMedia)) !in fate then w1 else
    var w2 := StreamsBrought(w1, fate);
    if Makes(M(MediaStreams)) in fate && Starts(M(MediaStreams)) in fate && TakesFrameSink in fate then SinkSet(w2) else w2
  }

  predicate StreamsStart(fate: Fate) {
    && Makes(M(DeviceMedia)) in fate
    && Makes(M(MediaStreams)) in fate && Starts(M(MediaStreams)) in fate && TakesFrameSink in fate
  }

  lemma StreamsStartedUnderway(w: World, fate: Fate)
    requires MediaUnderway(w)
    ensures MediaUnderway(StreamsStarted(w, fate))
    ensures StreamsStarted(w, fate) == w.(graph := StreamsStarted(w, fate).graph)
  {
    MediaMade(w, DeviceMedia, DeviceRefs(w), fate);
    var w1 := DeviceMade(w, fate);
    if Makes(M(DeviceMedia)) in fate {
      MediaMade(w1, MediaStreams, StreamsRefs(w1), fate);
      var w2 := StreamsBrought(w1, fate);
      if StreamsStart(fate) {
        MediaTouched(w2, w2.graph.nextId, DeviceMedia, SinkSet(w2).graph.objs[M(DeviceMedia)]);
      }
    }
  }

  lemma StreamsStartedWires(w: World, fate: Fate)
    requires Grounded(w)
    ensures StreamsStart(fate) ==> DeviceWired(StreamsStarted(w, fate))
    ensures M(AiService) !in w.graph.objs ==> M(AiService) !in StreamsStarted(w, fate).graph.objs
  {
  }

  predicate AiStarts(fate: Fate) {
    RegistersMedia in fate && Starts(M(DeviceMedia)) in fate && Makes(M(AiService)) in fate && Starts(M(AiService)) in fate
  }

  function DeviceStarted(w: World): World
    requires M(DeviceMedia) in w.graph.objs
  {
    NextObject(w, Op.Start(M(DeviceMedia)))
  }

  function DeviceOpened(w: World, fate: Fate): World
    requires DeviceWired(w)
  {
    if RegistersMedia !in fate then w else
    var w1 := w.(media := Some(w.graph.objs[M(MediaStreams)].id));
    if Starts(M(DeviceMedia)) !in fate then w1 else DeviceStarted(w1)
  }

  function AiStarted(w: World, fate: Fate): World
    requires DeviceWired(w) && DeviceUp(w)
  {
    var w1 := DeviceOpened(w, fate);
    if RegistersMedia !in fate || Starts(M(DeviceMedia)) !in fate then w1
    else Brought(w1, M(AiService), AiRefs(w1), NoPayload, fate)
  }

  lemma AiStartedUnderway(w: World, fate: Fate)
    requires MediaUnderway(w) && DeviceWired(w)
    ensures MediaUnderway(AiStarted(w, fate))
    ensures AiStarted(w, fate) == w.(graph := AiStarted(w, fate).graph, media := AiStarted(w, fate).media)
  {
    if RegistersMedia in fate && Starts(M(DeviceMedia)) in fate {
      var w1 := w.(media := Some(w.graph.objs[M(MediaStreams)].id));
      MediaTouched(w1, w1.graph.nextId, DeviceMedia, DeviceStarted(w1).graph.objs[M(DeviceMedia)]);
      MediaMade(DeviceStarted(w1), AiService, AiRefs(DeviceStarted(w1)), fate);
    }
  }

  lemma AiStartedRuns(w: World, fate: Fate)
    requires DeviceWired(w) && DeviceUp(w) && AiStarts(fate)
    ensures MediaUp(AiStarted(w, fate))
  {
  }

  // ----- Stopping, on values -----

  lemma MediaHolders(holder: Kind, target: MediaKind)
    requires MayHold(holder, M(target)) && Layer(holder) == 2
    ensures (target == DeviceMedia && (holder == M(MediaStreams) || holder == M(AiService))) ||
            (target == MediaStreams && holder == M(DeviceMedia))
  {
  }

  ghost predicate MediaDetached(w: World) {
    MediaStoppable(w) && forall kind: MediaKind :: M(kind) !in w.runtime
  }

  lemma MediaUnneeded(rules: Rules<Kind>, w: World, kind: MediaKind)
    requires rules == RULES && MediaDetached(w)
    requires kind == DeviceMedia ==> M(MediaStreams) !in w.graph.objs && M(AiService) !in w.graph.objs
    requires kind == MediaStreams ==>
               w.media.None? && (M(DeviceMedia) in w.graph.objs ==> M(MediaStreams) !in w.graph.objs[M(DeviceMedia)].refs)
    ensures Unneeded(rules, w, M(kind)) && MediaDetached(Retired(w, M(kind)))
  {
    assert Unreferenced(w, M(kind));
    forall holder: Kind | MayHold(holder, M(kind)) && Layer(holder) == 2
      ensures holder in w.graph.objs ==> M(kind) !in w.graph.objs[holder].refs
    {
      MediaHolders(holder, kind);
    }
    UnneededInLayer(rules, w, M(kind));
    NothingAboveRetired(2, w, M(kind));
  }

  lemma RuntimeHasNoMedia(w: World)
    requires WorldSafe(RULES, w) && MediaStoppable(w)
    ensures MediaDetached(w)
    ensures M(MediaStreams) !in w.graph.objs ==> w.media.None?
  {
    assert w.media.Some? ==> M(MediaStreams) in MediaTable(w);
  }

  /** The device no longer hands frames to anyone. */
  function SinkCleared(w: World): World {
    if M(DeviceMedia) in w.graph.objs then NextObject(w, Unlink(M(DeviceMedia), M(MediaStreams))) else w
  }

  lemma SinkClearPlan(rules: Rules<Kind>, w: World)
    requires rules == RULES && MediaDetached(w) && M(DeviceMedia) in w.graph.objs
    ensures MayObject(rules, w, Unlink(M(DeviceMedia), M(MediaStreams)))
    ensures MediaDetached(SinkCleared(w))
  {
    assert !MustHold(M(DeviceMedia), M(MediaStreams));
    NothingAboveTouched(w, SinkCleared(w).graph.objs[M(DeviceMedia)]);
  }

  predicate AiGone(w: World) {
    && M(AiService) !in w.graph.objs
    && (M(DeviceMedia) in w.graph.objs ==> M(MediaStreams) !in w.graph.objs[M(DeviceMedia)].refs)
  }

  lemma AiGoneAfter(w: World)
    ensures var after := SinkCleared(Retired(w, M(AiService)));
            && AiGone(after) && after.media == w.media
            && (M(MediaStreams) in after.graph.objs <==> M(MediaStreams) in w.graph.objs)
  {
  }

  lemma NothingAboveTouched(w: World, obj: Obj<Kind, Payload>)
    requires NothingAbove(2, w)
    ensures NothingAbove(2, Touched(w, w.graph.nextId, DeviceMedia, obj))
  {
  }

  lemma MediaRetired(w: World)
    ensures Retired(Retired(SinkCleared(Retired(w, M(AiService))).(media := None), M(MediaStreams)), M(DeviceMedia)) ==
            MediaStopped(w)
  {
    var stopped := Retired(Retired(SinkCleared(Retired(w, M(AiService))).(media := None), M(MediaStreams)), M(DeviceMedia));
    assert stopped.graph.objs == w.graph.objs - MEDIA_KINDS;
  }

  lemma EveryMediaKind(kind: MediaKind)
    ensures M(kind) in MEDIA_KINDS
  {
  }

  lemma MediaStoppedIsStoppable(w: World)
    requires MediaStoppable(w)
    ensures MediaStoppable(MediaStopped(w)) && MediaAbsent(MediaStopped(w)) && NothingAbove(1, MediaStopped(w))
  {
    forall kind | kind in MediaStopped(w).graph.objs
      ensures !kind.M?
    {
      if kind.M? {
        EveryMediaKind(kind.m);
      }
    }
  }

  class MediaSubsystem {
    const m: Machine
    var started: bool

    ghost predicate Valid()
      reads this, m
    {
      m.Valid() && m.rules == RULES && if started then MediaUp(m.w) else MediaAbsent(m.w)
    }

    constructor (m: Machine)
      requires m.Valid() && m.rules == RULES && MediaAbsent(m.w)
      ensures Valid() && this.m == m && !started
    {
      this.m := m;
      started := false;
    }

    /** The device and the streams, linked both ways; the device does not run yet. */
    method StartStreams(fate: Fate) returns (ok: bool)
      requires m.Valid() && m.rules == RULES && Grounded(m.w) && MediaAbsent(m.w)
      modifies m
      ensures m.Valid() && old(m.trace) <= m.trace
      ensures ok == StreamsStart(fate)
      ensures m.w == StreamsStarted(old(m.w), fate)
    {
      DeviceReady(m.rules, m.w);
      ok := m.Make(M(DeviceMedia), DeviceRefs(m.w), NoPayload, fate);
      if !ok {
        return;
      }
      ok := AddStreams(fate);
    }

    method AddStreams(fate: Fate) returns (ok: bool)
      requires m.Valid() && m.rules == RULES && Grounded(m.w)
      requires M(DeviceMedia) in m.w.graph.objs && M(MediaStreams) !in m.w.graph.objs
      modifies m
      ensures m.Valid() && old(m.trace) <= m.trace
      ensures ok == (Makes(M(MediaStreams)) in fate && Starts(M(MediaStreams)) in fate && TakesFrameSink in fate)
      ensures m.w == if ok then SinkSet(StreamsBrought(old(m.w), fate)) else StreamsBrought(old(m.w), fate)
    {
      StreamsReady(m.rules, m.w);
      ok := m.Bring(M(MediaStreams), StreamsRefs(m.w), NoPayload, fate);
      if !ok {
        return;
      }
      ok := TakesFrameSink in fate;
      if ok {
        FrameSinkPlan(m.rules, m.w);
        m.Act(Link(M(DeviceMedia), M(MediaStreams)));
      }
    }

    /** The source registry, and the device that feeds it. */
    method OpenDevice(fate: Fate) returns (ok: bool)
      requires m.Valid() && m.rules == RULES && DeviceWired(m.w) && Grounded(m.w)
      modifies m
      ensures m.Valid() && old(m.trace) <= m.trace
      ensures ok == (RegistersMedia in fate && Starts(M(DeviceMedia)) in fate)
      ensures m.w == DeviceOpened(old(m.w), fate)
    {
      ok := RegistersMedia in fate;
      if ok {
        m.Tell(RegisterMedia);
        ok := Starts(M(DeviceMedia)) in fate;
      }
      if ok {
        DeviceStartPlan(m.rules, m.w);
        m.Act(Op.Start(M(DeviceMedia)));
      }
    }

    /** The registry, the running device, and the AI service on top. */
    method StartAi(fate: Fate) returns (ok: bool)
      requires m.Valid() && m.rules == RULES && DeviceWired(m.w) && DeviceUp(m.w) && M(AiService) !in m.w.graph.objs
      modifies m
      ensures m.Valid() && old(m.trace) <= m.trace
      ensures ok == AiStarts(fate)
      ensures m.w == AiStarted(old(m.w), fate)
    {
      ok := OpenDevice(fate);
      if ok {
        AiReady(m.rules, m.w);
        ok := BringAi(AiRefs(m.w), fate);
      }
    }

    method BringAi(refs: map<Kind, nat>, fate: Fate) returns (ok: bool)
      requires m.Valid() && m.rules == RULES && RefsReady(m.rules, m.w, M(AiService), refs)
      modifies m
      ensures m.Valid() && old(m.trace) <= m.trace
      ensures ok == (Makes(M(AiService)) in fate && Starts(M(AiService)) in fate)
      ensures m.w == Brought(old(m.w), M(AiService), refs, NoPayload, fate)
    {
      ok := m.Bring(M(AiService), refs, NoPayload, fate);
    }

    /** First the AI service, then the device's pointer to the streams. */
    method StopAi()
      requires m.Valid() && m.rules == RULES && MediaDetached(m.w)
      modifies m
      ensures m.Valid() && old(m.trace) <= m.trace && MediaDetached(m.w)
      ensures m.w == SinkCleared(Retired(old(m.w), M(AiService)))
    {
      MediaUnneeded(m.rules, m.w, AiService);
      m.Retire(M(AiService));
      if M(DeviceMedia) in m.w.graph.objs {
        SinkClearPlan(m.rules, m.w);
        m.Act(Unlink(M(DeviceMedia), M(MediaStreams)));
      }
    }

    /** Then the streams, once no table and no device points at them, and the device. */
    method StopStreams()
      requires m.Valid() && m.rules == RULES && MediaDetached(m.w) && AiGone(m.w)
      requires M(MediaStreams) !in m.w.graph.objs ==> m.w.media.None?
      modifies m
      ensures m.Valid() && old(m.trace) <= m.trace
      ensures m.w == Retired(Retired(old(m.w).(media := None), M(MediaStreams)), M(DeviceMedia))
    {
      if M(MediaStreams) in m.w.graph.objs {
        m.Tell(ClearMedia);
      }
      MediaUnneeded(m.rules, m.w, MediaStreams);
      m.Retire(M(MediaStreams));
      MediaUnneeded(m.rules, m.w, DeviceMedia);
      m.Retire(M(DeviceMedia));
    }

    /** From whatever point a start has reached: nothing of the media layer is left, and no pointer to it. */
    method Stop()
      requires m.Valid() && m.rules == RULES && MediaStoppable(m.w)
      modifies this, m
      ensures m.Valid() && !started && old(m.trace) <= m.trace
      ensures m.w == MediaStopped(old(m.w))
    {
      MediaRetired(m.w);
      m.NowSafe();
      RuntimeHasNoMedia(m.w);
      AiGoneAfter(m.w);
      StopAi();
      StopStreams();
      started := false;
    }

    /** The four stages, as far as they come. */
    method StartAll(fate: Fate) returns (ok: bool)
      requires m.Valid() && m.rules == RULES && MediaAbsent(m.w) && MediaUnderway(m.w)
      modifies m
      ensures m.Valid() && old(m.trace) <= m.trace && MediaUnderway(m.w)
      ensures ok == MediaStarts(fate) && (ok ==> MediaUp(m.w))
      ensures m.w == old(m.w).(graph := m.w.graph, media := m.w.media)
    {
      StreamsStartedUnderway(m.w, fate);
      StreamsStartedWires(m.w, fate);
      ok := StartStreams(fate);
      if ok {
        AiStartedUnderway(m.w, fate);
        if AiStarts(fate) {
          AiStartedRuns(m.w, fate);
        }
        ok := StartAi(fate);
      }
    }

    /**
      Succeeds exactly when every call it depends on does; otherwise stops again, so that nothing of the
      media layer is left.  The layers below are not touched either way.
     */
    method Start(fate: Fate) returns (ok: bool)
      requires Valid() && (!started ==> MediaUnderway(m.w))
      modifies this, m
      ensures Valid() && started == ok && old(m.trace) <= m.trace
      ensures ok == (old(started) || MediaStarts(fate))
      ensures old(started) ==> m.w == old(m.w)
      ensures !old(started) ==> m.w == old(m.w).(graph := m.w.graph, media := m.w.media) && MediaStoppable(m.w)
      ensures !old(started) && ok ==> MediaUnderway(m.w)
    {
      if started {
        return true;
      }
      ok := StartAll(fate);
      if !ok {
        MediaStoppedIsStoppable(m.w);
        Stop();
        return;
      }
      started := true;
    }
  }
}
