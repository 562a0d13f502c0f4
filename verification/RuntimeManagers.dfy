/**
 * The runtime manager and its stub, called without interference: a table of per-session resources
 * over one shared port allocator.
 */
module RuntimeManagers {
  import opened Common
  import opened Sessions
  import opened Pmt
  import opened SessionStreams
  import opened StreamBindings
  import opened SessionServices
  import opened Lifecycle
  import opened LifecycleInvariant
  import opened LifecycleBodies
  import opened RuntimeResources

  /** The end of a prepare: what it promises when it returns, and what a throw leaves behind. */
  ghost predicate PrepareEnded(yaml: Yaml, session: Session, outcome: PrepareOutcome, before: Resources, after: Resources,
                               ports: set<Port>, ports': set<Port>) {
    if outcome.Ready? then PreparedFrom(yaml, session, before, after, ports, ports')
    else ThrewFrom(yaml, session, PrepareCall, before, after, ports, ports', if outcome.OutOfPorts? then outcome.leaked else {})
  }

  /** The end of a stop: it returns exactly under the stated condition, having freed just its session's ports, or keeps everything. */
  ghost predicate StopEnded(stopped: bool, schedulerStops: bool, before: Resources, after: Resources, ports: set<Port>, ports': set<Port>) {
    && (stopped <==> StopReturns(before, schedulerStops))
    && (if stopped then TornDownFrom(before, after, ports, ports') else KeptFrom(StopCall, before, after) && ports' == ports)
  }

  /** Whether an execution runs, and its phase, do not matter for what it serves. */
  lemma RunningServesToo(yaml: Yaml, session: Session, prepared: Resources, running: Resources)
    requires prepared.execution.Some? && running.execution.Some?
    requires running.bindings == prepared.bindings && running.execution.value.graph == prepared.execution.value.graph
    ensures Serves(yaml, session, running) <==> Serves(yaml, session, prepared)
  {
  }

  class Gr4RuntimeManager {
    const streamAllocator: StreamBindingAllocator
    var resources: map<SessionId, SessionRuntimeResources>

    /** Every session has resources of its own; no port is listed twice, and every listed port is allocated. */
    ghost predicate Valid()
      reads this, streamAllocator, resources.Values
    {
      && (forall id :: id in resources ==>
            && resources[id].sessionId == id
            && (resources[id].execution.None? ==> resources[id].streamBindings == [])
            && DistinctPorts(resources[id].streamBindings)
            && PortsOf(resources[id].streamBindings) <= streamAllocator.allocatedPorts)
      && (forall id, other :: id in resources && other in resources && id != other ==>
            PortsOf(resources[id].streamBindings) !! PortsOf(resources[other].streamBindings))
    }

    constructor ()
      ensures Valid() && resources == map[] && streamAllocator.allocatedPorts == {}
      ensures fresh(streamAllocator)
    {
      streamAllocator := new StreamBindingAllocator();
      resources := map[];
    }

    /** The other sessions keep their resources, and these keep their contents. */
    twostate predicate OthersUnchanged(id: SessionId)
      reads this, resources.Values
    {
      forall other :: other != id ==>
        && (other in resources <==> other in old(resources))
        && (other in resources ==> resources[other] == old(resources[other]) && resources[other].View() == old(resources[other].View()))
    }

    method GetOrCreateResources(session: Session) returns (found: SessionRuntimeResources)
      requires Valid()
      modifies this`resources
      ensures Valid() && session.id in resources && found == resources[session.id]
      ensures session.id in old(resources) ==> resources == old(resources)
      ensures session.id !in old(resources) ==>
        fresh(found) && resources == old(resources)[session.id := found] && found.View() == FreshResources(session.id)
    {
      if session.id in resources { return resources[session.id]; }
      found := new SessionRuntimeResources(session.id);
      resources := resources[session.id := found];
      NoBindingsNoPorts();
    }

    /** Resources other than those of one session are other objects. */
    lemma OtherObjects(id: SessionId)
      requires Valid() && id in resources
      ensures forall other :: other in resources && other != id ==> resources[other] != resources[id]
    {
      forall other | other in resources && other != id ensures resources[other] != resources[id] {
        assert resources[other].sessionId != resources[id].sessionId;
      }
    }

    /** What is known of a session's resources before a call: their contents, or those of fresh ones. */
    function Before(id: SessionId): Resources
      reads this, resources.Values
    {
      if id in resources then resources[id].View() else FreshResources(id)
    }

    method PrepareFound(yaml: Yaml, session: Session, answers: PrepareAnswers) returns (outcome: PrepareOutcome)
      requires Valid() && session.id in resources
      modifies streamAllocator, resources[session.id]
      ensures Valid()
      ensures PrepareEnded(yaml, session, outcome, old(resources[session.id].View()), resources[session.id].View(),
                           old(streamAllocator.allocatedPorts), streamAllocator.allocatedPorts)
    {
      hide Serves, PortsOf, DistinctPorts, ContractErrorOf, PlannedStreams;
      OtherObjects(session.id);
      outcome := resources[session.id].PrepareLocked(yaml, session, streamAllocator, answers);
    }

    method Prepare(yaml: Yaml, session: Session, answers: PrepareAnswers) returns (outcome: PrepareOutcome)
      requires Valid()
      modifies this, streamAllocator, resources.Values
      ensures Valid() && OthersUnchanged(session.id)
      ensures session.id in resources
      ensures session.id in old(resources) ==> resources[session.id] == old(resources[session.id])
      ensures session.id !in old(resources) ==> fresh(resources[session.id])
      ensures PrepareEnded(yaml, session, outcome, old(Before(session.id)), resources[session.id].View(),
                           old(streamAllocator.allocatedPorts), streamAllocator.allocatedPorts)
    {
      hide PrepareEnded, PortsOf, DistinctPorts;
      var found := GetOrCreateResources(session);
      OtherObjects(session.id);
      outcome := PrepareFound(yaml, session, answers);
    }

    /**
     * Start prepares again, which changes nothing if an execution is there, and then starts it. A
     * scheduler that cannot be started leaves what was prepared, with the phase at Starting.
     */
    method Start(yaml: Yaml, session: Session, answers: PrepareAnswers, schedulerStarts: bool)
      returns (outcome: PrepareOutcome, ghost prepared: Resources, started: bool)
      requires Valid()
      modifies this, streamAllocator, resources.Values
      ensures Valid() && OthersUnchanged(session.id)
      ensures session.id in resources
      ensures PrepareEnded(yaml, session, outcome, old(Before(session.id)), prepared,
                           old(streamAllocator.allocatedPorts), streamAllocator.allocatedPorts)
      ensures started ==>
        && outcome.Ready? && IsLive(resources[session.id].View()) && prepared.execution.Some?
        && resources[session.id].View()
           == prepared.(execution := Some(prepared.execution.value.(running := true)), phase := LifecyclePhase.Running)
        && (old(Before(session.id)).execution.None? ==> Serves(yaml, session, resources[session.id].View()))
      ensures !started && outcome.Ready? ==>
        resources[session.id].View()
           == prepared.(phase := if prepared.phase.Stopping? then LifecyclePhase.Stopping else LifecyclePhase.Starting)
      ensures !outcome.Ready? ==> !started && resources[session.id].View() == prepared
    {
      hide Serves, PortsOf, DistinctPorts, ContractErrorOf, PlannedStreams;
      outcome := Prepare(yaml, session, answers);
      prepared := resources[session.id].View();
      if !outcome.Ready? { return outcome, prepared, false; }
      OtherObjects(session.id);
      started := resources[session.id].StartExecution(schedulerStarts);
      RunningServesToo(yaml, session, prepared, resources[session.id].View());
    }

    /** The part of stop and destroy that runs under the session's mutex. */
    method StopFound(session: Session, schedulerStops: bool) returns (stopped: bool)
      requires Valid() && session.id in resources
      modifies streamAllocator, resources[session.id]
      ensures Valid()
      ensures StopEnded(stopped, schedulerStops, old(resources[session.id].View()), resources[session.id].View(),
                        old(streamAllocator.allocatedPorts), streamAllocator.allocatedPorts)
    {
      hide PortsOf, DistinctPorts;
      NoBindingsNoPorts();
      DistinctNothing();
      OtherObjects(session.id);
      stopped := resources[session.id].StopLocked(streamAllocator, schedulerStops);
    }

    static lemma DistinctNothing()
      ensures DistinctPorts([])
    {
    }

    method Stop(session: Session, schedulerStops: bool) returns (stopped: bool)
      requires Valid()
      modifies streamAllocator, resources.Values
      ensures Valid() && OthersUnchanged(session.id)
      ensures session.id !in resources ==> stopped && streamAllocator.allocatedPorts == old(streamAllocator.allocatedPorts)
      ensures session.id in resources ==>
        StopEnded(stopped, schedulerStops, old(resources[session.id].View()), resources[session.id].View(),
                  old(streamAllocator.allocatedPorts), streamAllocator.allocatedPorts)
    {
      if session.id !in resources { return true; }
      hide PortsOf, DistinctPorts;
      OtherObjects(session.id);
      stopped := StopFound(session, schedulerStops);
    }

    method Destroy(session: Session, schedulerStops: bool) returns (destroyed: bool)
      requires Valid()
      modifies this, streamAllocator, resources.Values
      ensures Valid() && OthersUnchanged(session.id)
      ensures session.id !in old(resources) ==> destroyed && streamAllocator.allocatedPorts == old(streamAllocator.allocatedPorts)
      ensures session.id in old(resources) ==> (destroyed <==> StopReturns(old(resources[session.id].View()), schedulerStops))
      ensures destroyed ==> session.id !in resources
      ensures destroyed && session.id in old(resources) ==>
        streamAllocator.allocatedPorts == old(streamAllocator.allocatedPorts) - PortsOf(old(resources[session.id].streamBindings))
      ensures !destroyed ==>
        && resources == old(resources) && streamAllocator.allocatedPorts == old(streamAllocator.allocatedPorts)
        && KeptFrom(DestroyCall, old(resources[session.id].View()), resources[session.id].View())
    {
      if session.id !in resources { return true; }
      hide PortsOf, DistinctPorts, StopEnded, KeptFrom, StopReturns;
      OtherObjects(session.id);
      ghost var before, ports := resources[session.id].View(), streamAllocator.allocatedPorts;
      destroyed := DestroyFound(session, schedulerStops);
      DestroyEnded(destroyed, schedulerStops, before, resources[session.id].View(), ports, streamAllocator.allocatedPorts);
      if !destroyed { return; }
      EraseEntry(session.id);
    }

    /** The second critical section of destroy. */
    method EraseEntry(id: SessionId)
      requires Valid() && id in resources
      modifies this`resources
      ensures Valid() && resources == old(resources) - {id}
    {
      hide PortsOf, DistinctPorts;
      resources := resources - {id};
    }

    static lemma DestroyEnded(destroyed: bool, schedulerStops: bool, before: Resources, after: Resources,
                              ports: set<Port>, ports': set<Port>)
      requires StopEnded(destroyed, schedulerStops, before, after, ports, ports')
      ensures destroyed <==> StopReturns(before, schedulerStops)
      ensures ports' == if destroyed then ports - PortsOf(before.bindings) else ports
      ensures !destroyed ==> KeptFrom(DestroyCall, before, after)
    {
      hide PortsOf;
    }

    /** The part of destroy that runs under the session's mutex. */
    method DestroyFound(session: Session, schedulerStops: bool) returns (destroyed: bool)
      requires Valid() && session.id in resources
      modifies streamAllocator, resources[session.id]
      ensures Valid()
      ensures StopEnded(destroyed, schedulerStops, old(resources[session.id].View()), resources[session.id].View(),
                        old(streamAllocator.allocatedPorts), streamAllocator.allocatedPorts)
    {
      hide PortsOf, DistinctPorts;
      OtherObjects(session.id);
      destroyed := StopFound(session, schedulerStops);
      if !destroyed { return; }
      resources[session.id].Clear(streamAllocator);
      VacantHoldsNothing(resources[session.id].View());
    }

    static lemma VacantHoldsNothing(resources: Resources)
      requires Vacant(resources)
      ensures resources.bindings == [] && PortsOf(resources.bindings) == {} && DistinctPorts(resources.bindings)
    {
    }
  }

  predicate HeldFor(bindings: map<SessionId, seq<StreamBinding>>, id: SessionId, port: Port) {
    id in bindings && port in PortsOf(bindings[id])
  }

  /** The ports are exactly those held for some session, no session lists one twice, and no two sessions share one. */
  ghost predicate Accounts(bindings: map<SessionId, seq<StreamBinding>>, ports: set<Port>) {
    && (forall id :: id in bindings ==> DistinctPorts(bindings[id]))
    && (forall id, other, port :: HeldFor(bindings, id, port) && HeldFor(bindings, other, port) ==> id == other)
    && (forall port :: port in ports <==> exists id :: HeldFor(bindings, id, port))
  }

  lemma AccountsAfterRelease(bindings: map<SessionId, seq<StreamBinding>>, ports: set<Port>, id: SessionId)
    requires Accounts(bindings, ports) && id in bindings
    ensures Accounts(bindings - {id}, ports - PortsOf(bindings[id]))
  {
    hide PortsOf, DistinctPorts;
    var rest := bindings - {id};
    assert forall other, port :: HeldFor(rest, other, port) <==> HeldFor(bindings, other, port) && other != id;
    forall port ensures port in ports - PortsOf(bindings[id]) <==> exists other :: HeldFor(rest, other, port) {
      assert HeldFor(bindings, id, port) <==> port in PortsOf(bindings[id]);
      if port in ports && port !in PortsOf(bindings[id]) {
        var other :| HeldFor(bindings, other, port);
        assert HeldFor(rest, other, port);
      }
    }
  }

  lemma AccountsAfterBinding(bindings: map<SessionId, seq<StreamBinding>>, ports: set<Port>, id: SessionId, built: seq<StreamBinding>)
    requires Accounts(bindings, ports) && id !in bindings
    requires DistinctPorts(built) && PortsOf(built) !! ports
    ensures Accounts(bindings[id := built], ports + PortsOf(built))
  {
    hide PortsOf, DistinctPorts;
    var all := bindings[id := built];
    assert forall other, port ::
      HeldFor(all, other, port) <==> (if other == id then port in PortsOf(built) else HeldFor(bindings, other, port));
    assert forall other, port :: HeldFor(bindings, other, port) ==> port in ports;
    forall port ensures port in ports + PortsOf(built) <==> exists other :: HeldFor(all, other, port) {
      if port in PortsOf(built) { assert HeldFor(all, id, port); }
      if port in ports {
        var other :| HeldFor(bindings, other, port);
        assert HeldFor(all, other, port);
      }
    }
  }

  /** The loop of `insert_or_assign` calls over a settings patch. */
  method Overwrite(fields: PropertyMap, patch: PropertyMap) returns (merged: PropertyMap)
    ensures merged == fields + patch
  {
    merged := fields;
    var todo := patch.Keys;
    while todo != {}
      invariant todo <= patch.Keys
      invariant merged.Keys == fields.Keys + (patch.Keys - todo)
      invariant forall key :: key in merged ==>
          merged[key] == if key in patch && key !in todo then patch[key] else fields[key]
      decreases |todo|
    {
      var key :| key in todo;
      merged := merged[key := patch[key]];
      todo := todo - {key};
    }
  }

  /** The stub runtime, which keeps its bindings per session and runs nothing. It is used sequentially. */
  class StubRuntimeManager {
    const streamAllocator: StreamBindingAllocator
    var streamBindings: map<SessionId, seq<StreamBinding>>
    var settings: map<SessionId, map<string, PropertyMap>>

    /** Never a leak: the allocated ports are exactly the ports of some session, each of one session only. */
    ghost predicate Valid()
      reads this, streamAllocator
    {
      Accounts(streamBindings, streamAllocator.allocatedPorts)
    }

    constructor ()
      ensures Valid() && streamBindings == map[] && settings == map[] && fresh(streamAllocator)
    {
      streamAllocator := new StreamBindingAllocator();
      streamBindings := map[];
      settings := map[];
    }

    function BindingsOf(id: SessionId): seq<StreamBinding>
      reads this`streamBindings
    {
      if id in streamBindings then streamBindings[id] else []
    }

    method ReleaseStreams(sessionId: SessionId)
      requires Valid()
      modifies this`streamBindings, streamAllocator
      ensures Valid() && streamBindings == old(streamBindings) - {sessionId}
      ensures streamAllocator.allocatedPorts == old(streamAllocator.allocatedPorts) - PortsOf(old(BindingsOf(sessionId)))
    {
      if sessionId !in streamBindings {
        NoBindingsNoPorts();
        assert streamBindings == streamBindings - {sessionId};
        return;
      }
      hide PortsOf, Accounts;
      AccountsAfterRelease(streamBindings, streamAllocator.allocatedPorts, sessionId);
      RuntimeResources.ReleaseAll(streamBindings[sessionId], streamAllocator);
      streamBindings := streamBindings - {sessionId};
    }

    /** A plan that cannot be fully bound keeps what it got, under the session, for the next release. */
    method Prepare(yaml: Yaml, session: Session, offers: seq<PortOffers>) returns (ready: bool)
      requires Valid()
      modifies this`streamBindings, streamAllocator
      ensures Valid()
      ensures forall id :: id != session.id ==> (id in streamBindings <==> id in old(streamBindings))
      ensures forall id :: id != session.id && id in streamBindings ==> streamBindings[id] == old(streamBindings)[id]
      ensures ready <==>
        && ContractErrorOf(yaml, session).None?
        && PortsSuffice(yaml, session, offers, old(streamAllocator.allocatedPorts) - PortsOf(old(BindingsOf(session.id))))
      ensures ready ==>
        if RuntimePlan(yaml, session).Some? then
          && session.id in streamBindings && PlansOf(streamBindings[session.id]) == RuntimePlan(yaml, session).value
          && forall k :: 0 <= k < |streamBindings[session.id]| ==> Wired(streamBindings[session.id][k])
        else session.id !in streamBindings
      ensures ContractErrorOf(yaml, session).Some? ==> session.id !in streamBindings
      ensures !ready && ContractErrorOf(yaml, session).None? ==>
        && session.id in streamBindings
        && PortList(streamBindings[session.id])
           == Granted(offers, old(streamAllocator.allocatedPorts) - PortsOf(old(BindingsOf(session.id))), |PlannedStreams(yaml, session)|)
    {
      hide PortsOf, DistinctPorts, RuntimePlan, ContractErrorOf, BindStream, Accounts;
      ReleaseStreams(session.id);
      var contractError := ValidateStreamRuntimeContract(yaml, session);
      if contractError.Some? { return false; }
      var plan := DeriveStreamRuntimePlan(yaml, session);
      if plan.None? {
        assert PlannedStreams(yaml, session) == [];
        return true;
      }
      PlannedStreamsAreReady(yaml, session);
      assert plan.value == PlannedStreams(yaml, session);
      ghost var before := streamAllocator.allocatedPorts;
      var bindings, complete := AllocateStreams(plan.value, streamAllocator, offers);
      AccountsAfterBinding(streamBindings, before, session.id, bindings);
      streamBindings := streamBindings[session.id := bindings];
      if complete { BuiltFollowsPlan(bindings, plan.value); }
      return complete;
    }

    method Stop(session: Session)
      requires Valid()
      modifies this`streamBindings, streamAllocator
      ensures Valid() && streamBindings == old(streamBindings) - {session.id}
    {
      ReleaseStreams(session.id);
    }

    /** Destroy also forgets the settings; both are gone for this session and kept for every other. */
    method Destroy(session: Session)
      requires Valid()
      modifies this, streamAllocator
      ensures Valid() && streamBindings == old(streamBindings) - {session.id} && settings == old(settings) - {session.id}
    {
      ReleaseStreams(session.id);
      settings := settings - {session.id};
    }

    method SetBlockSettings(session: Session, block: string, patch: PropertyMap)
      modifies this`settings
      ensures SettingsOf(session.id, block) == old(SettingsOf(session.id, block)) + patch
      ensures forall id, other :: id != session.id || other != block ==> SettingsOf(id, other) == old(SettingsOf(id, other))
    {
      var merged := Overwrite(SettingsOf(session.id, block), patch);
      var blocks := if session.id in settings then settings[session.id] else map[];
      settings := settings[session.id := blocks[block := merged]];
    }

    /** The settings last written to a block; empty for an unknown session or block. */
    function SettingsOf(id: SessionId, block: string): PropertyMap
      reads this`settings
    {
      if id in settings && block in settings[id] then settings[id][block] else map[]
    }

    /** A stopped system holds no port at all. */
    lemma NothingHeldNothingAllocated()
      requires Valid() && streamBindings == map[]
      ensures streamAllocator.allocatedPorts == {}
    {
    }
  }
}
