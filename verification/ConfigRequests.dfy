/**
  Requests to the configuration service while the application runs: how they reach the protocol subsystem,
  and what they make of it.
 */
module ConfigRequests {
  import opened Wrappers
  import opened JsonValues
  import opened AppConfiguration
  import opened ConfigLoader
  import opened ConfigChange
  import opened ObjectGraphs
  import opened Lifetimes
  import opened Machines
  import opened Protocol
  import opened Reconfiguration

  /**
    A request to store a new value for a section: `accept` is the answer of a service asked to follow, and
    `saves` says whether the file can be written.  The other kind of request is none to the configuration
    service: the interfaces report other addresses from now on, as after a write of the network section.
   */
  datatype Request =
    | Change(section: Section, value: Json, accept: bool, saves: bool)
    | NewAddresses(answers: map<string, string>)

  /** Requests for the four scopes are updates, those for other sections are plain writes. */
  function EventOf(request: Request): Event {
    match request
    case Change(section, value, accept, _) =>
      if ProtocolScope(section) then Update(section, value, accept) else Write(section, value)
    case NewAddresses(answers) => Readdress(Some(answers))
  }

  function EventsOf(requests: seq<Request>): seq<Event> {
    seq(|requests|, i requires 0 <= i < |requests| => EventOf(requests[i]))
  }

  ghost predicate OnlyProtocol(requests: seq<Request>) {
    forall request <- requests :: request.Change? && ProtocolScope(request.section)
  }

  /** The state after the first `n` requests. */
  ghost function RunTo(live: Live, requests: seq<Request>, n: nat): Live
    requires n <= |requests|
  {
    if n == 0 then live else Reconfiguration.Step(RunTo(live, requests, n - 1), EventOf(requests[n - 1]))
  }

  lemma {:induction false} RunToIsRun(live: Live, requests: seq<Request>, n: nat)
    requires n <= |requests|
    ensures RunTo(live, requests, n) == Run(live, EventsOf(requests)[..n])
  {
    if n != 0 {
      var events := EventsOf(requests)[..n];
      assert events[..|events| - 1] == EventsOf(requests)[..n - 1];
      RunToIsRun(live, requests, n - 1);
    }
  }

  lemma RunToEnd(live: Live, requests: seq<Request>)
    ensures RunTo(live, requests, |requests|) == Run(live, EventsOf(requests))
  {
    RunToIsRun(live, requests, |requests|);
    assert EventsOf(requests)[..|requests|] == EventsOf(requests);
  }

  lemma RequestsAreLegal(requests: seq<Request>)
    ensures Legal(EventsOf(requests))
    ensures OnlyProtocol(requests) ==> OnlyUpdates(EventsOf(requests))
  {
  }

  // ----- One update, in two halves -----

  ghost function AfterApply(live: Live, scope: Section, value: Json, accept: bool): Live {
    var (code, applied) := ApplyOutcome(live, scope, value, accept);
    if code == Ok then Commit(applied, scope, value) else live
  }

  lemma ForwardedUpdate(live: Live, scope: Section, value: Json, accept: bool, saves: bool)
    requires Forwarded(live, scope, value) && ProtocolScope(scope)
    ensures UpdateStep(live, scope, value, accept) ==
            if VerifyOutcome(live, scope, value) == Ok then AfterApply(live, scope, value, accept) else live
    ensures SetCode(live, scope, value, accept, saves) ==
            if VerifyOutcome(live, scope, value) != Ok then VerifyOutcome(live, scope, value)
            else if ApplyOutcome(live, scope, value, accept).0 != Ok then ApplyOutcome(live, scope, value, accept).0
            else if saves then Ok else Save
  {
  }

  method ApplyAndStore(p: ProtocolSubsystem, scope: Section, value: Json, accept: bool) returns (code: ConfigCode)
    requires p.Valid() && p.started
    modifies p, p.m
    ensures p.Valid() && p.started && old(p.m.trace) <= p.m.trace
    ensures p.View() == AfterApply(old(p.View()), scope, value, accept)
    ensures code == ApplyOutcome(old(p.View()), scope, value, accept).0
  {
    var error;
    code, error := p.ApplyProtocolConfigChange(scope, value, accept);
    if code == Ok {
      p.Store(scope, value);
    }
  }

  /** Verifies, applies and stores, in this order, and stores only what both accept. */
  method PassOn(p: ProtocolSubsystem, scope: Section, value: Json, accept: bool, saves: bool) returns (code: ConfigCode)
    requires p.Valid() && p.started && ProtocolScope(scope) && Forwarded(p.View(), scope, value)
    modifies p, p.m
    ensures p.Valid() && p.started && old(p.m.trace) <= p.m.trace
    ensures p.View() == UpdateStep(old(p.View()), scope, value, accept)
    ensures code == SetCode(old(p.View()), scope, value, accept, saves)
  {
    ForwardedUpdate(p.View(), scope, value, accept, saves);
    var error;
    code, error := p.VerifyProtocolConfigChange(scope, value);
    if code == Ok {
      code := ApplyAndStore(p, scope, value, accept);
      if code == Ok && !saves {
        code := Save;
      }
    }
  }

  method StoreOnly(p: ProtocolSubsystem, section: Section, value: Json, saves: bool) returns (code: ConfigCode)
    requires p.Valid() && p.started
    modifies p, p.m
    ensures p.Valid() && p.started && old(p.m.trace) <= p.m.trace
    ensures p.View() == Commit(old(p.View()), section, value)
    ensures code == if saves then Ok else Save
  {
    p.Store(section, value);
    code := if saves then Ok else Save;
  }

  lemma UnforwardedRequest(live: Live, request: Request)
    requires request.Change? && !Forwarded(live, request.section, request.value)
    ensures Reconfiguration.Step(live, EventOf(request)) == live
    ensures SetCode(live, request.section, request.value, request.accept, request.saves) ==
            if request.section in live.store then Ok else Missing
  {
    if request.section in live.store {
      assert live.store[request.section := request.value] == live.store;
    }
  }

  /** One request for a section; it must exist, and a value that is stored already goes no further. */
  method Serve(p: ProtocolSubsystem, request: Request) returns (code: ConfigCode)
    requires p.Valid() && p.started && request.Change?
    modifies p, p.m
    ensures p.Valid() && p.started && old(p.m.trace) <= p.m.trace
    ensures p.View() == Reconfiguration.Step(old(p.View()), EventOf(request))
    ensures code == SetCode(old(p.View()), request.section, request.value, request.accept, request.saves)
  {
    if request.section !in p.m.w.store || p.m.w.store[request.section] == request.value {
      UnforwardedRequest(p.View(), request);
      code := if request.section in p.m.w.store then Ok else Missing;
    } else if ProtocolScope(request.section) {
      code := PassOn(p, request.section, request.value, request.accept, request.saves);
    } else {
      code := StoreOnly(p, request.section, request.value, request.saves);
    }
  }

  method Take(p: ProtocolSubsystem, request: Request)
    requires p.Valid() && p.started
    modifies p, p.m
    ensures p.Valid() && p.started && old(p.m.trace) <= p.m.trace
    ensures p.View() == Reconfiguration.Step(old(p.View()), EventOf(request))
  {
    if request.Change? {
      var code := Serve(p, request);
    } else {
      p.TakeAddresses(request.answers);
    }
  }

  /** Any sequence of requests takes the running services along a run of the reconfiguration machine. */
  method ServeAll(p: ProtocolSubsystem, requests: seq<Request>)
    requires p.Valid() && p.started
    modifies p, p.m
    ensures p.Valid() && p.started && old(p.m.trace) <= p.m.trace
    ensures p.View() == Run(old(p.View()), EventsOf(requests))
  {
    for i := 0 to |requests|
      invariant p.Valid() && p.started && old(p.m.trace) <= p.m.trace
      invariant p.View() == RunTo(old(p.View()), requests, i)
    {
      Take(p, requests[i]);
    }
    RunToEnd(old(p.View()), requests);
  }
}
