/**
 * The bodies that run under a session's mutex, as methods on the session's resources, and the
 * runtime manager that finds those resources. Each body is run without interference here; Lifecycle
 * cuts the same bodies at their calls out of the mutex.
 */
module RuntimeResources {
  import opened Common
  import opened Pmt
  import opened Sessions
  import opened SessionStreams
  import opened StreamBindings
  import opened FlowGraphs
  import opened SessionServices
  import opened Lifecycle
  import opened LifecycleInvariant
  import opened LifecycleBodies
  import GraphRewriting
  import GraphTheorems

  /** What the environment answers during one prepare: plugin bootstrap, port offers per stream, loading. */
  datatype PrepareAnswers = PrepareAnswers(bootstraps: bool, offers: seq<PortOffers>, loads: bool)

  /** The ports a failed allocation loop leaves behind. */
  datatype PrepareOutcome = Ready | Rejected | OutOfPorts(leaked: set<Port>)

  class SessionRuntimeResources {
    const sessionId: SessionId
    var generation: nat
    var lifecyclePhase: LifecyclePhase
    var execution: Option<Execution>
    var streamBindings: seq<StreamBinding>

    constructor (sessionId: SessionId)
      ensures View() == FreshResources(sessionId)
    {
      this.sessionId := sessionId;
      generation := 0;
      lifecyclePhase := LifecyclePhase.Idle;
      execution := None;
      streamBindings := [];
    }

    function View(): Resources
      reads this
    {
      Resources(sessionId, generation, lifecyclePhase, execution, streamBindings, 0)
    }

    method ReleaseStreamBindings(allocator: StreamBindingAllocator)
      modifies this`streamBindings, allocator
      ensures streamBindings == []
      ensures allocator.allocatedPorts == old(allocator.allocatedPorts) - PortsOf(old(streamBindings))
    {
      var i := 0;
      while i < |streamBindings|
        invariant 0 <= i <= |streamBindings| && streamBindings == old(streamBindings)
        invariant allocator.allocatedPorts == old(allocator.allocatedPorts) - PortsOf(streamBindings[..i])
      {
        allocator.Release(streamBindings[i].internal);
        PortsOfPrefix(streamBindings, i);
        i := i + 1;
      }
      assert streamBindings[..i] == streamBindings;
      streamBindings := [];
    }

    /**
     * Ready: an execution is there, and if it is new it serves the session's graph over ports that
     * were free. Rejected: nothing is left allocated. OutOfPorts: the ports taken before the
     * failing stream stay allocated and nobody holds them.
     */
    method PrepareLocked(yaml: Yaml, session: Session, allocator: StreamBindingAllocator, answers: PrepareAnswers)
      returns (outcome: PrepareOutcome)
      requires execution.None? ==> streamBindings == []
      modifies this, allocator
      ensures old(lifecyclePhase).Stopping? ==> outcome == Rejected
      ensures !old(lifecyclePhase).Stopping? && old(execution).Some? ==> outcome == Ready
      ensures !old(lifecyclePhase).Stopping? && old(execution).None? ==>
        (outcome.Ready? <==> CanBuild(yaml, session, answers, old(allocator.allocatedPorts)))
      ensures outcome.Ready? ==>
        PreparedFrom(yaml, session, old(View()), View(), old(allocator.allocatedPorts), allocator.allocatedPorts)
      ensures !outcome.Ready? ==>
        ThrewFrom(yaml, session, PrepareCall, old(View()), View(), old(allocator.allocatedPorts), allocator.allocatedPorts,
                  if outcome.OutOfPorts? then outcome.leaked else {})
    {
      hide PortsOf, DistinctPorts, ContractErrorOf, LoadedGraph, PlansOf, AsAllocated, PlannedStreams, PortsSuffice,
           GraphTheorems.Loadable, PreparedFrom, ThrewFrom;
      ghost var before, ports := View(), allocator.allocatedPorts;
      NothingPrepared(yaml, session, before, ports);
      if lifecyclePhase == LifecyclePhase.Stopping { return Rejected; }
      if execution.Some? { return Ready; }
      var contractError := ValidateStreamRuntimeContract(yaml, session);
      if contractError.Some? || !answers.bootstraps { return Rejected; }
      NoBindingsNoPorts();
      ReleaseStreamBindings(allocator);
      assert View() == before && allocator.allocatedPorts == ports;
      var built, graph;
      outcome, built, graph := BuildExecution(yaml, session, allocator, answers);
      if !outcome.Ready? {
        if outcome.OutOfPorts? { PortsAbandoned(yaml, session, before, ports, outcome.leaked); }
        return;
      }
      NewExecution(yaml, session, before, built, graph, ports);
      execution := Some(Execution(false, graph));
      streamBindings := built;
      generation := generation + 1;
      lifecyclePhase := LifecyclePhase.Idle;
    }

    /** On success nothing runs and exactly this session's ports are free again; on failure none is. */
    method StopLocked(allocator: StreamBindingAllocator, schedulerStops: bool) returns (stopped: bool)
      requires execution.None? ==> streamBindings == []
      modifies this, allocator
      ensures stopped <==> StopReturns(old(View()), schedulerStops)
      ensures stopped ==> TornDownFrom(old(View()), View(), old(allocator.allocatedPorts), allocator.allocatedPorts)
      ensures !stopped ==>
        KeptFrom(StopCall, old(View()), View()) && allocator.allocatedPorts == old(allocator.allocatedPorts)
    {
      if execution.None? {
        ReleaseStreamBindings(allocator);
        lifecyclePhase := LifecyclePhase.Idle;
        return true;
      }
      if lifecyclePhase == LifecyclePhase.Stopping { return false; }
      lifecyclePhase := LifecyclePhase.Stopping;
      if execution.value.running && !schedulerStops {
        lifecyclePhase := LifecyclePhase.Failed;
        return false;
      }
      execution := Some(execution.value.(running := false));
      ReleaseStreamBindings(allocator);
      execution := None;
      lifecyclePhase := LifecyclePhase.Idle;
      return true;
    }

    /** What destroy does after stop_locked has returned: it repeats the release and changes nothing. */
    method Clear(allocator: StreamBindingAllocator)
      requires Vacant(View())
      modifies this, allocator
      ensures View() == old(View()) && allocator.allocatedPorts == old(allocator.allocatedPorts)
    {
      NoBindingsNoPorts();
      execution := None;
      ReleaseStreamBindings(allocator);
      lifecyclePhase := LifecyclePhase.Idle;
    }

    /** The part of start that follows prepare_locked. A scheduler that throws leaves the phase at Starting. */
    method StartExecution(schedulerStarts: bool) returns (started: bool)
      requires execution.Some?
      modifies this`execution, this`lifecyclePhase
      ensures StartEnded(started, schedulerStarts, old(View()), View())
    {
      if lifecyclePhase == LifecyclePhase.Stopping { return false; }
      if execution.value.running && lifecyclePhase == LifecyclePhase.Running { return true; }
      lifecyclePhase := LifecyclePhase.Starting;
      if !schedulerStarts { return false; }
      execution := Some(execution.value.(running := true));
      lifecyclePhase := LifecyclePhase.Running;
      return true;
    }
  }

  lemma NothingPrepared(yaml: Yaml, session: Session, before: Resources, ports: set<Port>)
    ensures before.execution.Some? ==> PreparedFrom(yaml, session, before, before, ports, ports)
    ensures ThrewFrom(yaml, session, PrepareCall, before, before, ports, ports, {}) && ports + {} == ports
  {
  }

  lemma PortsAbandoned(yaml: Yaml, session: Session, before: Resources, ports: set<Port>, leaked: set<Port>)
    requires before.execution.None? && leaked !! ports && |leaked| < |PlannedStreams(yaml, session)|
    ensures ThrewFrom(yaml, session, PrepareCall, before, before, ports, ports + leaked, leaked)
  {
    hide PlannedStreams;
  }

  lemma NewExecution(yaml: Yaml, session: Session, before: Resources, built: seq<StreamBinding>, graph: Option<PropertyMap>,
                     ports: set<Port>)
    requires before.execution.None? && ContractErrorOf(yaml, session).None?
    requires PlansOf(built) == PlannedStreams(yaml, session) && AsAllocated(built)
    requires LoadedGraph(yaml, session.grcContent, built) == Ok(graph)
    requires DistinctPorts(built) && PortsOf(built) !! ports
    ensures PreparedFrom(yaml, session, before,
                         before.(execution := Some(Execution(false, graph)), bindings := built,
                                 generation := before.generation + 1, phase := LifecyclePhase.Idle),
                         ports, ports + PortsOf(built))
  {
    hide ContractErrorOf, PlansOf, PlannedStreams, AsAllocated, LoadedGraph, DistinctPorts, PortsOf;
  }

  /** Every stream of the session's plan finds a port. */
  predicate PortsSuffice(yaml: Yaml, session: Session, offers: seq<PortOffers>, ports: set<Port>) {
    |Granted(offers, ports, |PlannedStreams(yaml, session)|)| == |PlannedStreams(yaml, session)|
  }

  /**
   * What it takes to build an execution: the stream contract holds, the bootstrap works, every planned
   * stream finds a port, and the stored graph can be rewritten and is accepted by the loader.
   */
  ghost predicate CanBuild(yaml: Yaml, session: Session, answers: PrepareAnswers, ports: set<Port>) {
    && ContractErrorOf(yaml, session).None? && answers.bootstraps
    && PortsSuffice(yaml, session, answers.offers, ports)
    && GraphTheorems.Loadable(yaml, session.grcContent) && answers.loads
  }

  /** Allocation and loading; when loading fails the handler gives the ports back. */
  method BuildExecution(yaml: Yaml, session: Session, allocator: StreamBindingAllocator, answers: PrepareAnswers)
    returns (outcome: PrepareOutcome, built: seq<StreamBinding>, graph: Option<PropertyMap>)
    modifies allocator
    ensures ContractErrorOf(yaml, session).None? ==>
      (outcome.Ready? <==>
        && PortsSuffice(yaml, session, answers.offers, old(allocator.allocatedPorts))
        && GraphTheorems.Loadable(yaml, session.grcContent) && answers.loads)
    ensures allocator.allocatedPorts == old(allocator.allocatedPorts) +
      match outcome
      case Ready => PortsOf(built)
      case Rejected => {}
      case OutOfPorts(leaked) => leaked
    ensures outcome.Ready? ==>
      && PlansOf(built) == PlannedStreams(yaml, session) && AsAllocated(built)
      && LoadedGraph(yaml, session.grcContent, built) == Ok(graph)
      && DistinctPorts(built) && PortsOf(built) !! old(allocator.allocatedPorts)
    ensures outcome.OutOfPorts? ==>
      outcome.leaked !! old(allocator.allocatedPorts) && |outcome.leaked| < |PlannedStreams(yaml, session)|
  {
    graph := None;
    var plan := DeriveStreamRuntimePlan(yaml, session);
    var plans := if plan.Some? then plan.value else [];
    assert plans == PlannedStreams(yaml, session);
    PlannedStreamsAreReady(yaml, session);
    hide RuntimePlan, PortsOf, DistinctPorts, LoadedGraph, PlannedStreams, ContractErrorOf, GraphTheorems.Loadable, Granted,
         PlansOf, AsAllocated, BindStream;
    var complete;
    built, complete := AllocateStreams(plans, allocator, answers.offers);
    assert |PortList(built)| == |built| && (complete <==> PortsSuffice(yaml, session, answers.offers, old(allocator.allocatedPorts)));
    hide PortsSuffice, PortList;
    PortsCount(built);
    if !complete { return OutOfPorts(PortsOf(built)), built, None; }
    BuiltFollowsPlan(built, plans);
    if ContractErrorOf(yaml, session).None? { GraphTheorems.AcceptedSessionLoadsIff(yaml, session, built); }
    var loaded, _ := GraphRewriting.NormalizeGraphContent(yaml, session.grcContent, built);
    if loaded.Err? || !answers.loads {
      ReleaseAll(built, allocator);
      return Rejected, built, None;
    }
    return Ready, built, loaded.value;
  }

  lemma BuiltFollowsPlan(built: seq<StreamBinding>, plans: seq<StreamPlan>)
    requires |built| == |plans|
    requires forall k :: 0 <= k < |built| ==> plans[k].ready && built[k] == BindStream(plans[k], built[k].internal.port)
    ensures PlansOf(built) == plans && AsAllocated(built)
  {
  }

  /** The allocation loop: one binding per planned stream, or the bindings built before the first failure. */
  method AllocateStreams(plans: seq<StreamPlan>, allocator: StreamBindingAllocator, offers: seq<PortOffers>)
    returns (built: seq<StreamBinding>, complete: bool)
    modifies allocator
    ensures |built| <= |plans| && (complete <==> |built| == |plans|)
    ensures PortList(built) == Granted(offers, old(allocator.allocatedPorts), |plans|)
    ensures forall k :: 0 <= k < |built| ==> built[k] == BindStream(plans[k], built[k].internal.port)
    ensures forall k :: 0 <= k < |built| ==> built[k].plan == plans[k].(ready := true) && Wired(built[k])
    ensures DistinctPorts(built) && PortsOf(built) !! old(allocator.allocatedPorts)
    ensures allocator.allocatedPorts == old(allocator.allocatedPorts) + PortsOf(built)
  {
    hide PortsOf, DistinctPorts, Granted, FirstFree, Wired;
    built := [];
    NoBindingsNoPorts();
    NothingGranted(offers, allocator.allocatedPorts);
    var i := 0;
    while i < |plans|
      invariant 0 <= i <= |plans| && |built| == i
      invariant forall k :: 0 <= k < i ==> built[k] == BindStream(plans[k], built[k].internal.port)
      invariant forall k :: 0 <= k < i ==> built[k].plan == plans[k].(ready := true) && Wired(built[k])
      invariant DistinctPorts(built) && PortsOf(built) !! old(allocator.allocatedPorts)
      invariant allocator.allocatedPorts == old(allocator.allocatedPorts) + PortsOf(built)
      invariant PortList(built) == Granted(offers, old(allocator.allocatedPorts), i)
    {
      var source := OffersFor(offers, i);
      PortListElements(built);
      GrantedStep(offers, old(allocator.allocatedPorts), i);
      var internal: Option<InternalBinding>;
      if plans[i].transport == "websocket" {
        internal := allocator.AllocateWebSocket(source);
      } else {
        internal := allocator.AllocateHttp(source);
      }
      if internal.None? {
        GrantedStops(offers, old(allocator.allocatedPorts), i + 1, |plans|);
        return built, false;
      }
      var ready := plans[i].(ready := true);
      var binding := StreamBinding(ready, internal.value, ToBrowserStream(ready));
      BoundIsWired(plans[i], internal.value.port);
      AnotherPort(built, binding, old(allocator.allocatedPorts));
      assert PortList(built + [binding]) == PortList(built) + [binding.internal.port];
      built := built + [binding];
      i := i + 1;
    }
    return built, true;
  }

  lemma NothingGranted(offers: seq<PortOffers>, taken: set<Port>)
    ensures Granted(offers, taken, 0) == [] && DistinctPorts([])
  {
  }

  /** A binding on a port that is neither allocated nor listed keeps the list free of repetitions. */
  lemma AnotherPort(built: seq<StreamBinding>, binding: StreamBinding, ports: set<Port>)
    requires DistinctPorts(built) && PortsOf(built) !! ports && binding.internal.port !in ports + PortsOf(built)
    ensures DistinctPorts(built + [binding]) && PortsOf(built + [binding]) == PortsOf(built) + {binding.internal.port}
    ensures PortsOf(built + [binding]) !! ports
  {
    PortsOfAppend(built, binding);
  }

  /** The loop of the exception handler. */
  method ReleaseAll(built: seq<StreamBinding>, allocator: StreamBindingAllocator)
    modifies allocator
    ensures allocator.allocatedPorts == old(allocator.allocatedPorts) - PortsOf(built)
  {
    var i := 0;
    while i < |built|
      invariant 0 <= i <= |built|
      invariant allocator.allocatedPorts == old(allocator.allocatedPorts) - PortsOf(built[..i])
    {
      allocator.Release(built[i].internal);
      PortsOfPrefix(built, i);
      i := i + 1;
    }
    assert built[..i] == built;
  }
}
