/** What the service's phases are for: without them the runtime's own locking would let a start outlive a destroy. */
module LifecycleRace {
  import opened Common
  import opened Pmt
  import opened SessionStreams
  import opened StreamBindings
  import opened SessionServices
  import opened FlowGraphs
  import opened Lifecycle

  /**
   * A start and a destroy inside the runtime for one session, which the service never lets happen:
   * thread 0 has a start call to make or is at a place of it, thread 1 the same for a destroy call.
   */
  function Race(inTable: bool, starting: Position, destroying: Position, holder: Option<ThreadId>, resources: Resources): State {
    var session := NewSession("a", "", "graph", None);
    State(ServiceState(map["a" := session], map["a" := LifecyclePhase.Starting]),
          if inTable then map["a" := 0] else map[], map[0 := resources], 1,
          if holder.Some? then map[0 := holder.value] else map[], Returned(false), {}, {},
          map[0 := Working(Operation.Start, session, [StartCall], starting, Receipt({}, {})),
              1 := Working(Operation.Remove, session, if inTable then [DestroyCall] else [], destroying, Receipt({}, {}))])
  }

  /** Before the race: both calls are about to look the session up, and its resources are in the table. */
  function Ungated(): State {
    Race(true, Between, Between, None, FreshResources("a"))
  }

  ghost predicate Leads(yaml: Yaml, s: State, event: Event, s': State) {
    Enabled(s, event) && Step(yaml, s, event) == s'
  }

  lemma RaceFetches(yaml: Yaml)
    ensures var initial := FreshResources("a");
      && Leads(yaml, Ungated(), Advance(0, Returns), Race(true, Fetched(0), Between, None, initial))
      && Leads(yaml, Race(true, Fetched(0), Between, None, initial), Advance(1, Returns), Race(true, Fetched(0), Fetched(0), None, initial))
  {
    hide StepEntered, StepReleasing, StepAllocating, StepLoading, StepPrepared, StepErasing, StepTorndown;
  }

  lemma RaceStops(yaml: Yaml)
    ensures var initial, go := FreshResources("a"), Advance(1, Returns);
      && Leads(yaml, Race(true, Fetched(0), Fetched(0), None, initial), go, Race(true, Fetched(0), Entered(0), Some(1), initial))
      && Leads(yaml, Race(true, Fetched(0), Entered(0), Some(1), initial), go,
               Race(true, Fetched(0), Releasing(0, ThenIdle), Some(1), initial))
  {
    NoBindingsNoPorts();
    hide StepBetween, StepReleasing, StepAllocating, StepLoading, StepPrepared, StepErasing, StepTorndown, PortsOf;
    assert StepFetched(Race(true, Fetched(0), Fetched(0), None, FreshResources("a")), 1, 0).locks == map[0 := 1];
  }

  lemma RaceReleases(yaml: Yaml)
    ensures var initial, go := FreshResources("a"), Advance(1, Returns);
      && Leads(yaml, Race(true, Fetched(0), Releasing(0, ThenIdle), Some(1), initial), go,
               Race(true, Fetched(0), Torndown(0), Some(1), initial))
      && Leads(yaml, Race(true, Fetched(0), Torndown(0), Some(1), initial), go,
               Race(true, Fetched(0), Releasing(0, ThenErase), Some(1), initial))
  {
    hide StepBetween, StepFetched, StepEntered, StepAllocating, StepLoading, StepPrepared, StepErasing, PortsOf, PlannedStreams;
  }

  lemma RaceLeaves(yaml: Yaml)
    ensures Leads(yaml, Race(true, Fetched(0), Releasing(0, ThenErase), Some(1), FreshResources("a")), Advance(1, Returns),
                  Race(true, Fetched(0), Erasing(0), None, FreshResources("a")))
  {
    hide StepBetween, StepFetched, StepEntered, StepAllocating, StepLoading, StepPrepared, StepTorndown, StepErasing, PortsOf,
         PlannedStreams;
    assert Race(true, Fetched(0), Releasing(0, ThenErase), Some(1), FreshResources("a")).locks - {0} == map[];
  }

  lemma RaceErases(yaml: Yaml)
    ensures Leads(yaml, Race(true, Fetched(0), Erasing(0), None, FreshResources("a")), Advance(1, Returns),
                  Race(false, Fetched(0), Between, None, FreshResources("a")))
  {
    hide StepBetween, StepFetched, StepEntered, StepReleasing, StepAllocating, StepLoading, StepPrepared, StepTorndown, PortsOf;
    var s := Race(true, Fetched(0), Erasing(0), None, FreshResources("a"));
    assert s.table - {"a"} == map[] && [DestroyCall][1..] == [];
    assert StepErasing(s, 1, 0).threads == Race(false, Fetched(0), Between, None, FreshResources("a")).threads;
  }

  lemma RaceTakesTheMutex(yaml: Yaml)
    ensures Leads(yaml, Race(false, Fetched(0), Between, None, FreshResources("a")), Advance(0, Returns),
                  Race(false, Entered(0), Between, Some(0), FreshResources("a")))
  {
    hide StepBetween, StepEntered, StepReleasing, StepAllocating, StepLoading, StepPrepared, StepErasing, StepTorndown;
    NoBindingsNoPorts();
    hide PortsOf;
    assert StepFetched(Race(false, Fetched(0), Between, None, FreshResources("a")), 0, 0).locks == map[0 := 0];
  }

  lemma RaceEnters(yaml: Yaml)
    requires yaml("graph") == None
    ensures var initial, go := FreshResources("a"), Advance(0, Returns);
      && Leads(yaml, Race(false, Entered(0), Between, Some(0), initial), go, Race(false, AtOnce(0), Between, Some(0), initial))
      && Leads(yaml, Race(false, AtOnce(0), Between, Some(0), initial), go,
               Race(false, Releasing(0, ThenAllocate), Between, Some(0), initial))
  {
    hide StepBetween, StepFetched, StepReleasing, StepAllocating, StepLoading, StepPrepared, StepErasing, StepTorndown, PortsOf;
  }

  lemma RacePrepares(yaml: Yaml)
    requires yaml("graph") == None
    ensures var initial, go := FreshResources("a"), Advance(0, Returns);
      && Leads(yaml, Race(false, Releasing(0, ThenAllocate), Between, Some(0), initial), go,
               Race(false, Allocating(0, [], []), Between, Some(0), initial))
      && Leads(yaml, Race(false, Allocating(0, [], []), Between, Some(0), initial), go,
               Race(false, Loading(0, []), Between, Some(0), initial))
  {
    hide StepBetween, StepFetched, StepEntered, StepLoading, StepPrepared, StepErasing, StepTorndown, PortsOf, LoadedGraph, FirstFree;
  }

  /** The resources that the start call has prepared. */
  function Loaded(): Resources {
    FreshResources("a").(execution := Some(Execution(false, None)), generation := 1)
  }

  lemma RaceLoads(yaml: Yaml)
    requires yaml("graph") == None
    ensures Leads(yaml, Race(false, Loading(0, []), Between, Some(0), FreshResources("a")), Advance(0, Returns),
                  Race(false, Prepared(0), Between, Some(0), Loaded()))
  {
    hide StepBetween, StepFetched, StepEntered, StepReleasing, StepAllocating, StepPrepared, StepErasing, StepTorndown, PortsOf;
  }

  lemma RaceStarts(yaml: Yaml)
    ensures Leads(yaml, Race(false, Prepared(0), Between, Some(0), Loaded()), Advance(0, Returns),
                  Race(false, SchedulerStarting(0), Between, Some(0), Loaded().(phase := LifecyclePhase.Starting)))
  {
    hide StepBetween, StepFetched, StepEntered, StepReleasing, StepAllocating, StepLoading, StepErasing, StepTorndown, PortsOf;
  }

  lemma RaceEnds(yaml: Yaml, resources: Resources) returns (s': State)
    requires resources.execution.Some?
    ensures Leads(yaml, Race(false, SchedulerStarting(0), Between, Some(0), resources), Advance(0, Returns), s')
    ensures 0 in s'.store && IsLive(s'.store[0]) && s'.table == map[]
  {
    hide StepBetween, StepFetched, StepEntered, StepReleasing, StepAllocating, StepLoading, StepPrepared, StepErasing, PortsOf;
    s' := Step(yaml, Race(false, SchedulerStarting(0), Between, Some(0), resources), Advance(0, Returns));
  }

  /**
   * The runtime alone does not prevent orphans: the start fetches the resources, the destroy runs from
   * its lookup to its erase, and then the start goes on, to a running execution in resources that no
   * table entry points to.
   */
  lemma OrphanWithoutTheGate(yaml: Yaml) returns (events: seq<Event>, states: seq<State>)
    requires yaml("graph") == None
    ensures |states| == |events| + 1 && states[0] == Ungated()
    ensures forall i :: 0 <= i < |events| ==> Leads(yaml, states[i], events[i], states[i + 1])
    ensures var s := states[|events|];
      0 in s.store && IsLive(s.store[0]) && s.table == map[]
  {
    hide Leads, IsLive, Race;
    RaceFetches(yaml);
    RaceStops(yaml);
    RaceReleases(yaml);
    RaceLeaves(yaml);
    RaceErases(yaml);
    RaceTakesTheMutex(yaml);
    RaceEnters(yaml);
    RacePrepares(yaml);
    RaceLoads(yaml);
    RaceStarts(yaml);
    var initial, starting := FreshResources("a"), Loaded().(phase := LifecyclePhase.Starting);
    var last := RaceEnds(yaml, starting);
    var start, destroy := Advance(0, Returns), Advance(1, Returns);
    events := [start, destroy, destroy, destroy, destroy, destroy, destroy, destroy,
               start, start, start, start, start, start, start, start];
    states := [Ungated(), Race(true, Fetched(0), Between, None, initial), Race(true, Fetched(0), Fetched(0), None, initial),
               Race(true, Fetched(0), Entered(0), Some(1), initial), Race(true, Fetched(0), Releasing(0, ThenIdle), Some(1), initial),
               Race(true, Fetched(0), Torndown(0), Some(1), initial), Race(true, Fetched(0), Releasing(0, ThenErase), Some(1), initial),
               Race(true, Fetched(0), Erasing(0), None, initial), Race(false, Fetched(0), Between, None, initial),
               Race(false, Entered(0), Between, Some(0), initial), Race(false, AtOnce(0), Between, Some(0), initial),
               Race(false, Releasing(0, ThenAllocate), Between, Some(0), initial),
               Race(false, Allocating(0, [], []), Between, Some(0), initial), Race(false, Loading(0, []), Between, Some(0), initial),
               Race(false, Prepared(0), Between, Some(0), Loaded()), Race(false, SchedulerStarting(0), Between, Some(0), starting), last];
  }
}
