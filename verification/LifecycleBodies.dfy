/**
 * The bodies of prepare and stop as the transition system cuts them up, run without interference:
 * from the moment a thread takes the session's mutex to the end of the body, its own steps together
 * do what the predicates below say. RuntimeResources proves the same predicates of the bodies as methods.
 */
module LifecycleBodies {
  import opened Common
  import opened Pmt
  import opened Sessions
  import opened SessionStreams
  import opened StreamBindings
  import opened FlowGraphs
  import opened SessionServices
  import opened Lifecycle
  import opened LifecycleInvariant
  import opened LifecyclePorts

  // ----- what a body does to the resources and the allocated ports -----

  /** An existing execution is kept; a new one serves the session over ports that were free before. */
  ghost predicate PreparedFrom(yaml: Yaml, session: Session, before: Resources, after: Resources, ports: set<Port>, ports': set<Port>) {
    && after.execution.Some?
    && (before.execution.Some? ==> after == before && ports' == ports)
    && (before.execution.None? ==>
          && !after.execution.value.running && after.phase.Idle? && after.generation == before.generation + 1
          && ContractErrorOf(yaml, session).None? && Serves(yaml, session, after)
          && DistinctPorts(after.bindings) && PortsOf(after.bindings) !! ports
          && ports' == ports + PortsOf(after.bindings))
  }

  /** Nothing is left of the execution, and exactly its ports are free again; no other teardown was in progress. */
  ghost predicate TornDownFrom(before: Resources, after: Resources, ports: set<Port>, ports': set<Port>) {
    && (before.execution.Some? ==> !before.phase.Stopping?)
    && Vacant(after) && after.generation == before.generation && ports' == ports - PortsOf(before.bindings)
  }

  /** When a stop returns: there is nothing to stop, or nobody else is stopping it and the scheduler, if it runs, can be stopped. */
  predicate StopReturns(before: Resources, schedulerStops: bool) {
    before.execution.None? || (!before.phase.Stopping? && (before.execution.value.running ==> schedulerStops))
  }

  /**
   * A body that throws leaves the resources as they were, but for the phase: a scheduler that cannot
   * be stopped leaves it at Failed. A stop throws only then, or when another teardown is in progress.
   */
  predicate KeptFrom(call: RuntimeCall, before: Resources, after: Resources) {
    if Starts(call) || before.phase.Stopping? then after == before && (!Starts(call) ==> before.execution.Some?)
    else after == before.(phase := LifecyclePhase.Failed) && before.execution.Some? && before.execution.value.running
  }

  /** Execution and bindings stay; only a failed allocation loop leaves ports behind, and fewer than were planned. */
  ghost predicate ThrewFrom(yaml: Yaml, session: Session, call: RuntimeCall, before: Resources, after: Resources,
                            ports: set<Port>, ports': set<Port>, leaked: set<Port>) {
    && KeptFrom(call, before, after) && ports' == ports + leaked && leaked !! ports
    && (leaked != {} ==> Starts(call) && before.execution.None? && |leaked| < |PlannedStreams(yaml, session)|)
  }

  // ----- one body, alone -----

  predicate BodyOver(at: Position) {
    at.Prepared? || at.Torndown? || at.Raised?
  }

  predicate InBody(at: Position) {
    || at.Entered? || at.AtOnce? || at.InOnce? || at.Releasing? || at.Allocating? || at.Loading? || at.Undoing?
    || at.SchedulerStopping?
  }

  /**
   * What has become of the resources and the ports since the thread took the mutex, at each position
   * of the body: `before`, `ports` and `lost` are what it found, the primed ones what is there now.
   */
  ghost predicate SinceAt(yaml: Yaml, session: Session, call: RuntimeCall, at: Position, before: Resources, after: Resources,
                          ports: set<Port>, ports': set<Port>, lost: set<Port>, lost': set<Port>) {
    && (!at.Raised? ==> lost' == lost)
    && match at
       case Entered(_) => after == before && ports' == ports
       case AtOnce(_) => Accepted(yaml, session, call, before) && after == before && ports' == ports
       case InOnce(_) => Accepted(yaml, session, call, before) && after == before && ports' == ports
       case Releasing(_, ThenAllocate) => Accepted(yaml, session, call, before) && after == before && ports' == ports
       case Releasing(_, ThenIdle) => !Starts(call) && before.execution.None? && after == before && ports' == ports
       case Releasing(_, ThenDropExecution) =>
         && !Starts(call) && !before.phase.Stopping?
         && after.bindings == before.bindings && after.generation == before.generation
         && after.released <= |before.bindings| && ports' == ports - PortsOf(before.bindings[..after.released])
       case Allocating(_, built, todo) =>
         && Accepted(yaml, session, call, before) && after == before
         && ports' == ports + PortsOf(built) && FreshPorts(built, ports)
         && |built| + |todo| == |PlannedStreams(yaml, session)|
       case Loading(_, built) =>
         && Accepted(yaml, session, call, before) && after == before
         && ports' == ports + PortsOf(built) && FreshPorts(built, ports)
       case Undoing(_, built) =>
         && Accepted(yaml, session, call, before) && after == before
         && ports' == ports + PortsOf(built) && FreshPorts(built, ports)
       case SchedulerStopping(_) =>
         && !Starts(call) && before.execution.Some? && before.execution.value.running && !before.phase.Stopping?
         && after == before.(phase := LifecyclePhase.Stopping) && ports' == ports
       case Prepared(_) => Starts(call) && PreparedFrom(yaml, session, before, after, ports, ports')
       case Torndown(_) => !Starts(call) && TornDownFrom(before, after, ports, ports')
       case Raised =>
         exists leaked :: lost' == lost + leaked && ThrewFrom(yaml, session, call, before, after, ports, ports', leaked)
       case _ => false
  }

  /** A prepare that has to build an execution, past the contract check. */
  predicate Accepted(yaml: Yaml, session: Session, call: RuntimeCall, before: Resources) {
    Starts(call) && before.execution.None? && ContractErrorOf(yaml, session).None?
  }

  ghost predicate FreshPorts(built: seq<StreamBinding>, ports: set<Port>) {
    DistinctPorts(built) && PortsOf(built) !! ports
  }

  /** The thread stays in its operation, and nothing but its own session's resources changes. */
  ghost predicate SameElsewhere(s0: State, s: State, t: ThreadId, ref: Ref) {
    && IsWorking(s0, t) && IsWorking(s, t) && ref in s0.store && ref in s.store && s.store == s0.store[ref := s.store[ref]]
    && s.service == s0.service && s.table == s0.table
    && s.threads[t].session == s0.threads[t].session && s.threads[t].calls == s0.threads[t].calls != []
  }

  ghost predicate Since(yaml: Yaml, s0: State, s: State, t: ThreadId, ref: Ref) {
    && SameElsewhere(s0, s, t, ref)
    && var th := s.threads[t];
       SinceAt(yaml, th.session, th.calls[0], th.at, s0.store[ref], s.store[ref], s0.ports, s.ports, s0.leaked, s.leaked)
  }

  lemma NothingLeaked(yaml: Yaml, session: Session, call: RuntimeCall, before: Resources, after: Resources,
                      ports: set<Port>, lost: set<Port>)
    requires KeptFrom(call, before, after)
    ensures SinceAt(yaml, session, call, Raised, before, after, ports, ports, lost, lost)
  {
    assert lost == lost + {};
    assert ThrewFrom(yaml, session, call, before, after, ports, ports, {});
  }

  lemma EnteredSince(yaml: Yaml, s0: State, s: State, t: ThreadId, ref: Ref)
    requires Inside(yaml, s, t, ref) && Since(yaml, s0, s, t, ref) && s.threads[t].at.Entered?
    ensures Since(yaml, s0, StepEntered(yaml, s, t, ref), t, ref)
  {
    hide ContractErrorOf, PlannedStreams, PortsOf, Serves, IsLive, ThrewFrom, WorkingOk;
    assert s.store[ref].released == 0;
    var th, s' := s.threads[t], StepEntered(yaml, s, t, ref);
    if s'.threads[t].at.Raised? {
      NothingLeaked(yaml, th.session, th.calls[0], s0.store[ref], s'.store[ref], s0.ports, s0.leaked);
    }
    assert s.store[ref].bindings[..0] == [];
    NoBindingsNoPorts();
  }

  lemma AtOnceSince(yaml: Yaml, s0: State, s: State, t: ThreadId, ref: Ref)
    requires Since(yaml, s0, s, t, ref) && s.threads[t].at == AtOnce(ref)
    ensures Since(yaml, s0, StepAtOnce(s, t, ref), t, ref)
  {
    hide ContractErrorOf, PlannedStreams, PortsOf, ThrewFrom;
    var th := s.threads[t];
    NothingLeaked(yaml, th.session, th.calls[0], s0.store[ref], s.store[ref], s0.ports, s0.leaked);
  }

  lemma InOnceSince(yaml: Yaml, s0: State, s: State, t: ThreadId, ref: Ref, answer: Answer)
    requires Since(yaml, s0, s, t, ref) && s.threads[t].at == InOnce(ref)
    ensures Since(yaml, s0, StepInOnce(s, t, ref, answer), t, ref)
  {
    hide ContractErrorOf, PlannedStreams, PortsOf, ThrewFrom;
    var th := s.threads[t];
    NothingLeaked(yaml, th.session, th.calls[0], s0.store[ref], s.store[ref], s0.ports, s0.leaked);
  }

  lemma TailIsFresh(built: seq<StreamBinding>, ports: set<Port>)
    requires FreshPorts(built, ports) && built != []
    ensures FreshPorts(built[1..], ports)
    ensures ports + PortsOf(built) - {built[0].internal.port} == ports + PortsOf(built[1..])
  {
    hide PortsOf;
    PortsOfTail(built);
  }

  lemma AppendIsFresh(built: seq<StreamBinding>, binding: StreamBinding, ports: set<Port>)
    requires FreshPorts(built, ports) && binding.internal.port !in ports + PortsOf(built)
    ensures FreshPorts(built + [binding], ports)
    ensures ports + PortsOf(built + [binding]) == ports + PortsOf(built) + {binding.internal.port}
  {
    PortsOfAppend(built, binding);
  }

  lemma NothingFresh(ports: set<Port>)
    ensures FreshPorts([], ports)
  {
  }

  lemma OneReleasedSince(yaml: Yaml, s0: State, s: State, t: ThreadId, ref: Ref)
    requires Inside(yaml, s, t, ref) && Since(yaml, s0, s, t, ref) && s.threads[t].at.Releasing?
    requires s.store[ref].released < |s.store[ref].bindings|
    ensures Since(yaml, s0, StepReleasing(yaml, s, t, ref, s.threads[t].at.next), t, ref)
  {
    hide ContractErrorOf, PlannedStreams, PortsOf, Settled, Serves, IsLive, ThrewFrom, FreshPorts, PreparedFrom, AsAllocated;
    NoBindingsNoPorts();
    PortsOfPrefix(s.store[ref].bindings, s.store[ref].released);
  }

  lemma ListReleasedSince(yaml: Yaml, s0: State, s: State, t: ThreadId, ref: Ref)
    requires Inside(yaml, s, t, ref) && Since(yaml, s0, s, t, ref) && s.threads[t].at.Releasing?
    requires s.store[ref].released >= |s.store[ref].bindings|
    ensures Since(yaml, s0, StepReleasing(yaml, s, t, ref, s.threads[t].at.next), t, ref)
  {
    hide ContractErrorOf, PlannedStreams, PortsOf, Settled, Serves, IsLive, ThrewFrom, FreshPorts, PreparedFrom, AsAllocated;
    NoBindingsNoPorts();
    NothingFresh(s0.ports);
    assert s.store[ref].bindings[..|s.store[ref].bindings|] == s.store[ref].bindings;
  }

  lemma ReleasingSince(yaml: Yaml, s0: State, s: State, t: ThreadId, ref: Ref)
    requires Inside(yaml, s, t, ref) && Since(yaml, s0, s, t, ref) && s.threads[t].at.Releasing?
    ensures Since(yaml, s0, StepReleasing(yaml, s, t, ref, s.threads[t].at.next), t, ref)
  {
    if s.store[ref].released < |s.store[ref].bindings| {
      hide Since, StepReleasing;
      OneReleasedSince(yaml, s0, s, t, ref);
    } else {
      hide Since, StepReleasing;
      ListReleasedSince(yaml, s0, s, t, ref);
    }
  }

  lemma ListAbandoned(yaml: Yaml, session: Session, call: RuntimeCall, before: Resources, built: seq<StreamBinding>,
                      ports: set<Port>, lost: set<Port>)
    requires Starts(call) && before.execution.None? && FreshPorts(built, ports) && |built| < |PlannedStreams(yaml, session)|
    ensures SinceAt(yaml, session, call, Raised, before, before, ports, ports + PortsOf(built), lost, lost + PortsOf(built))
  {
    hide PortsOf, PlannedStreams, DistinctPorts;
    PortsCount(built);
    assert ThrewFrom(yaml, session, call, before, before, ports, ports + PortsOf(built), PortsOf(built));
  }

  lemma AllocatingSince(yaml: Yaml, s0: State, s: State, t: ThreadId, ref: Ref, answer: Answer)
    requires Inside(yaml, s, t, ref) && Since(yaml, s0, s, t, ref) && s.threads[t].at.Allocating?
    ensures Since(yaml, s0, StepAllocating(s, t, ref, answer), t, ref)
  {
    assert Starts(s.threads[t].calls[0]);
    hide ContractErrorOf, PlannedStreams, PortsOf, FirstFree, FreshPorts, ThrewFrom, Inside;
    var th, s' := s.threads[t], StepAllocating(s, t, ref, answer);
    assert SameElsewhere(s0, s', t, ref);
    if s'.threads[t].at.Raised? {
      ListAbandoned(yaml, th.session, th.calls[0], s0.store[ref], th.at.built, s0.ports, s0.leaked);
      hide SinceAt;
    } else if th.at.todo != [] {
      var port := FirstFree(answer.offers, s.ports, MAX_ATTEMPTS).value;
      AppendIsFresh(th.at.built, BindStream(th.at.todo[0], port), s0.ports);
    }
  }

  lemma LoadingSince(yaml: Yaml, s0: State, s: State, t: ThreadId, ref: Ref, answer: Answer)
    requires Inside(yaml, s, t, ref) && Since(yaml, s0, s, t, ref) && s.threads[t].at.Loading?
    ensures Since(yaml, s0, StepLoading(yaml, s, t, ref, s.threads[t].at.built, answer), t, ref)
  {
    hide ContractErrorOf, PlannedStreams, PortsOf, Settled, IsLive, LoadedGraph, PlansOf, AsAllocated, DistinctPorts;
  }

  lemma UndoingSince(yaml: Yaml, s0: State, s: State, t: ThreadId, ref: Ref)
    requires Inside(yaml, s, t, ref) && Since(yaml, s0, s, t, ref) && s.threads[t].at.Undoing?
    ensures Since(yaml, s0, StepUndoing(s, t, ref, s.threads[t].at.built), t, ref)
  {
    hide ContractErrorOf, PlannedStreams, PortsOf, Settled, Serves, IsLive, WorkingOk, FreshPorts, ThrewFrom;
    var th, built := s.threads[t], s.threads[t].at.built;
    if built == [] {
      NoBindingsNoPorts();
      assert s.ports == s0.ports + {} == s0.ports;
      NothingLeaked(yaml, th.session, th.calls[0], s0.store[ref], s.store[ref], s0.ports, s0.leaked);
    } else {
      TailIsFresh(built, s0.ports);
    }
  }

  lemma StoppingSince(yaml: Yaml, s0: State, s: State, t: ThreadId, ref: Ref, answer: Answer)
    requires Inside(yaml, s, t, ref) && Since(yaml, s0, s, t, ref) && s.threads[t].at.SchedulerStopping?
    ensures Since(yaml, s0, StepSchedulerStopping(s, t, ref, answer), t, ref)
  {
    hide ContractErrorOf, PlannedStreams, PortsOf, Settled, Serves, IsLive, ThrewFrom;
    var th, s' := s.threads[t], StepSchedulerStopping(s, t, ref, answer);
    if s'.threads[t].at.Raised? {
      NothingLeaked(yaml, th.session, th.calls[0], s0.store[ref], s'.store[ref], s0.ports, s0.leaked);
    }
    assert s.store[ref].bindings[..0] == [];
    NoBindingsNoPorts();
    assert s.ports - {} == s.ports;
  }

  lemma SinceInBody(yaml: Yaml, s0: State, s: State, t: ThreadId, ref: Ref)
    requires Since(yaml, s0, s, t, ref) && !BodyOver(s.threads[t].at)
    ensures InBody(s.threads[t].at)
  {
    hide Accepted, FreshPorts, PreparedFrom, TornDownFrom, ThrewFrom, PortsOf, PlannedStreams;
  }

  lemma BodyStepSince(yaml: Yaml, s0: State, s: State, t: ThreadId, ref: Ref, answer: Answer)
    requires Inside(yaml, s, t, ref) && Since(yaml, s0, s, t, ref) && Enabled(s, Advance(t, answer))
    requires InBody(s.threads[t].at)
    ensures Since(yaml, s0, StepWorking(yaml, s, t, answer), t, ref)
  {
    hide Since, SinceAt, StepEntered, StepAtOnce, StepInOnce, StepReleasing, StepAllocating, StepLoading, StepUndoing,
         StepSchedulerStopping;
    match s.threads[t].at {
      case Entered(_) => EnteredSince(yaml, s0, s, t, ref);
      case AtOnce(_) => AtOnceSince(yaml, s0, s, t, ref);
      case InOnce(_) => InOnceSince(yaml, s0, s, t, ref, answer);
      case Releasing(_, _) => ReleasingSince(yaml, s0, s, t, ref);
      case Allocating(_, _, _) => AllocatingSince(yaml, s0, s, t, ref, answer);
      case Loading(_, _) => LoadingSince(yaml, s0, s, t, ref, answer);
      case Undoing(_, _) => UndoingSince(yaml, s0, s, t, ref);
      case SchedulerStopping(_) => StoppingSince(yaml, s0, s, t, ref, answer);
    }
  }

  lemma StepSince(yaml: Yaml, s0: State, s: State, t: ThreadId, ref: Ref, answer: Answer)
    requires Inv(yaml, s) && Since(yaml, s0, s, t, ref) && IsWorking(s, t) && Enabled(s, Advance(t, answer))
    requires s.threads[t].at != Between && !BodyOver(s.threads[t].at) && s.threads[t].at.ref == ref
    ensures Since(yaml, s0, StepWorking(yaml, s, t, answer), t, ref)
  {
    WhileInside(yaml, s, t);
    SinceInBody(yaml, s0, s, t, ref);
    hide Inv, Inside, Since, StepWorking;
    BodyStepSince(yaml, s0, s, t, ref, answer);
  }

  /** The thread has just taken the session's mutex, and from there on only its own steps happen, up to the end of the body. */
  ghost predicate RunsAlone(yaml: Yaml, states: seq<State>, answers: seq<Answer>, t: ThreadId, ref: Ref) {
    && |states| == |answers| + 1 && Inv(yaml, states[0])
    && IsWorking(states[0], t) && states[0].threads[t].at == Entered(ref)
    && forall i :: 0 <= i < |answers| ==>
         && IsWorking(states[i], t) && !BodyOver(states[i].threads[t].at) && Enabled(states[i], Advance(t, answers[i]))
         && states[i + 1] == Step(yaml, states[i], Advance(t, answers[i]))
  }

  lemma {:induction false} AloneSince(yaml: Yaml, states: seq<State>, answers: seq<Answer>, t: ThreadId, ref: Ref, i: nat)
    requires RunsAlone(yaml, states, answers, t, ref) && i < |states|
    ensures Inv(yaml, states[i]) && Since(yaml, states[0], states[i], t, ref) && OnIt(states[i], t, ref)
  {
    if i == 0 {
      FirstSince(yaml, states[0], t, ref);
    } else {
      hide Inv, Since, Step, Enabled;
      AloneSince(yaml, states, answers, t, ref, i - 1);
      OneMore(yaml, states[0], states[i - 1], t, ref, answers[i - 1]);
    }
  }

  /** Inside the mutex of these resources, or on the way out with an exception. */
  predicate OnIt(s: State, t: ThreadId, ref: Ref) {
    IsWorking(s, t) && !s.threads[t].at.Between? && (s.threads[t].at.Raised? || s.threads[t].at.ref == ref)
  }

  lemma FirstSince(yaml: Yaml, s: State, t: ThreadId, ref: Ref)
    requires Inv(yaml, s) && IsWorking(s, t) && s.threads[t].at == Entered(ref)
    ensures Since(yaml, s, s, t, ref)
  {
    WhileInside(yaml, s, t);
    hide ServiceInv, ThreadInv, StoreInv, LockInv, PlaceOk;
    assert s.store == s.store[ref := s.store[ref]];
  }

  lemma OneMore(yaml: Yaml, s0: State, s: State, t: ThreadId, ref: Ref, answer: Answer)
    requires Inv(yaml, s) && Since(yaml, s0, s, t, ref) && OnIt(s, t, ref)
    requires !BodyOver(s.threads[t].at) && Enabled(s, Advance(t, answer))
    ensures var s' := Step(yaml, s, Advance(t, answer));
      Inv(yaml, s') && Since(yaml, s0, s', t, ref) && OnIt(s', t, ref)
  {
    StepKeeps(yaml, s, Advance(t, answer));
    StepSince(yaml, s0, s, t, ref, answer);
    StaysOnIt(yaml, s, t, ref, answer);
  }

  lemma LoopStaysOnIt(yaml: Yaml, s: State, t: ThreadId, ref: Ref, answer: Answer)
    requires OnIt(s, t, ref) && Enabled(s, Advance(t, answer))
    requires var at := s.threads[t].at; at.Releasing? || at.Allocating? || at.Undoing?
    ensures OnIt(StepWorking(yaml, s, t, answer), t, ref)
  {
    hide PlannedStreams, PortsOf, FirstFree, StepBetween, StepFetched, StepPrepared, StepSchedulerStarting, StepTorndown,
         StepErasing, StepRaised, StepEntered, StepAtOnce, StepInOnce, StepLoading, StepSchedulerStopping;
  }

  lemma StaysOnIt(yaml: Yaml, s: State, t: ThreadId, ref: Ref, answer: Answer)
    requires OnIt(s, t, ref) && !BodyOver(s.threads[t].at) && Enabled(s, Advance(t, answer))
    requires InBody(s.threads[t].at)
    ensures OnIt(StepWorking(yaml, s, t, answer), t, ref)
  {
    hide ContractErrorOf, LoadedGraph, PlannedStreams, PortsOf, FirstFree, StepBetween, StepFetched, StepPrepared,
         StepSchedulerStarting, StepTorndown, StepErasing, StepRaised, StepReleasing, StepAllocating, StepUndoing;
    var at := s.threads[t].at;
    if at.Releasing? || at.Allocating? || at.Undoing? { LoopStaysOnIt(yaml, s, t, ref, answer); }
  }

  /** The end of a body: prepare_locked or stop_locked has returned, or one of them has thrown. */
  ghost predicate BodyDone(yaml: Yaml, s0: State, s: State, t: ThreadId, ref: Ref) {
    && SameElsewhere(s0, s, t, ref)
    && var th, before, after := s.threads[t], s0.store[ref], s.store[ref];
    && (th.at.Prepared? ==>
          Starts(th.calls[0]) && PreparedFrom(yaml, th.session, before, after, s0.ports, s.ports) && s.leaked == s0.leaked)
    && (th.at.Torndown? ==> !Starts(th.calls[0]) && TornDownFrom(before, after, s0.ports, s.ports) && s.leaked == s0.leaked)
    && (th.at.Raised? ==>
          exists leaked ::
            && s.leaked == s0.leaked + leaked
            && ThrewFrom(yaml, th.session, th.calls[0], before, after, s0.ports, s.ports, leaked))
  }

  lemma SinceIsDone(yaml: Yaml, s0: State, s: State, t: ThreadId, ref: Ref)
    requires Since(yaml, s0, s, t, ref)
    ensures BodyDone(yaml, s0, s, t, ref)
  {
    hide PreparedFrom, TornDownFrom, ThrewFrom, FreshPorts, PortsOf, PlannedStreams, ContractErrorOf;
  }

  /**
   * A body that nobody interrupts does in all its steps what the method of the same name promises:
   * when prepare_locked returns, when stop_locked returns, and when either throws.
   */
  lemma UninterruptedBody(yaml: Yaml, states: seq<State>, answers: seq<Answer>, t: ThreadId, ref: Ref)
    requires RunsAlone(yaml, states, answers, t, ref)
    ensures |states| == |answers| + 1 && BodyDone(yaml, states[0], states[|answers|], t, ref)
  {
    AloneSince(yaml, states, answers, t, ref, |answers|);
    hide Inv, Since, BodyDone, Step, Enabled;
    SinceIsDone(yaml, states[0], states[|answers|], t, ref);
  }

  /** Some call of the scheduler's stop threw. */
  ghost predicate SchedulerThrew(states: seq<State>, answers: seq<Answer>, t: ThreadId)
    requires |states| == |answers| + 1
  {
    exists i :: 0 <= i < |answers| && IsWorking(states[i], t) && states[i].threads[t].at.SchedulerStopping? && answers[i].Throws?
  }

  /**
   * A stop body returns exactly when there is nothing to stop, or no other teardown is in progress and
   * the scheduler, if it runs, can be stopped; this is the condition of the method StopLocked.
   */
  lemma StopBodyReturnsIff(yaml: Yaml, states: seq<State>, answers: seq<Answer>, t: ThreadId, ref: Ref)
    requires RunsAlone(yaml, states, answers, t, ref)
    requires states[0].threads[t].calls != [] && !Starts(states[0].threads[t].calls[0])
    requires IsWorking(states[|answers|], t) && BodyOver(states[|answers|].threads[t].at) && ref in states[0].store
    ensures states[|answers|].threads[t].at.Torndown? <==> StopReturns(states[0].store[ref], !SchedulerThrew(states, answers, t))
  {
    var n := |answers|;
    AloneSince(yaml, states, answers, t, ref, n);
    LastStep(yaml, states, answers, t, ref);
    AloneSince(yaml, states, answers, t, ref, n - 1);
    ThrewAtTheEnd(yaml, states, answers, t, ref);
    hide Inv, RunsAlone, SchedulerThrew, Since, Step, Enabled, StopReturns;
    EndOfStop(yaml, states[0], states[n - 1], states[n], t, ref, answers[n - 1]);
  }

  lemma LastStep(yaml: Yaml, states: seq<State>, answers: seq<Answer>, t: ThreadId, ref: Ref)
    requires RunsAlone(yaml, states, answers, t, ref)
    requires IsWorking(states[|answers|], t) && BodyOver(states[|answers|].threads[t].at)
    ensures var n := |answers|;
      && n > 0 && IsWorking(states[n - 1], t) && !BodyOver(states[n - 1].threads[t].at)
      && Enabled(states[n - 1], Advance(t, answers[n - 1])) && states[n] == Step(yaml, states[n - 1], Advance(t, answers[n - 1]))
  {
    hide Inv, Step, Enabled;
  }

  /** A scheduler that throws ends the body at once. */
  lemma ThrewAtTheEnd(yaml: Yaml, states: seq<State>, answers: seq<Answer>, t: ThreadId, ref: Ref)
    requires RunsAlone(yaml, states, answers, t, ref) && |answers| > 0 && IsWorking(states[|answers| - 1], t)
    ensures SchedulerThrew(states, answers, t) <==>
      states[|answers| - 1].threads[t].at.SchedulerStopping? && answers[|answers| - 1].Throws?
  {
    hide Inv, Step, Enabled;
    if SchedulerThrew(states, answers, t) {
      var i :| 0 <= i < |answers| && IsWorking(states[i], t) && states[i].threads[t].at.SchedulerStopping? && answers[i].Throws?;
      SchedulerThrows(yaml, states[i], t, answers[i]);
      assert states[i + 1] == Step(yaml, states[i], Advance(t, answers[i])) && BodyOver(states[i + 1].threads[t].at);
      if i + 1 < |answers| { assert false; }
    }
  }

  lemma EndOfStop(yaml: Yaml, s0: State, s: State, s': State, t: ThreadId, ref: Ref, answer: Answer)
    requires Since(yaml, s0, s, t, ref) && OnIt(s, t, ref) && !BodyOver(s.threads[t].at) && Enabled(s, Advance(t, answer))
    requires s' == Step(yaml, s, Advance(t, answer)) && Since(yaml, s0, s', t, ref) && BodyOver(s'.threads[t].at)
    requires !Starts(s0.threads[t].calls[0])
    ensures s'.threads[t].at.Torndown? <==>
      StopReturns(s0.store[ref], !(s.threads[t].at.SchedulerStopping? && answer.Throws?))
  {
    if s'.threads[t].at.Raised? {
      WhyStopRaised(yaml, s0, s, t, ref, answer);
    } else {
      if s.threads[t].at.SchedulerStopping? && answer.Throws? { SchedulerThrows(yaml, s, t, answer); }
      hide Step, Enabled, PortsOf, PlannedStreams, ContractErrorOf, PreparedFrom, ThrewFrom, FreshPorts;
    }
  }

  lemma SchedulerThrows(yaml: Yaml, s: State, t: ThreadId, answer: Answer)
    requires IsWorking(s, t) && Enabled(s, Advance(t, answer)) && s.threads[t].at.SchedulerStopping? && answer.Throws?
    ensures var s' := Step(yaml, s, Advance(t, answer)); IsWorking(s', t) && s'.threads[t].at.Raised?
  {
  }

  lemma WhyStopRaised(yaml: Yaml, s0: State, s: State, t: ThreadId, ref: Ref, answer: Answer)
    requires Since(yaml, s0, s, t, ref) && !Starts(s.threads[t].calls[0]) && !BodyOver(s.threads[t].at)
    requires Enabled(s, Advance(t, answer)) && OnIt(s, t, ref)
    requires IsWorking(Step(yaml, s, Advance(t, answer)), t) && Step(yaml, s, Advance(t, answer)).threads[t].at.Raised?
    ensures s0.store[ref].execution.Some?
    ensures s0.store[ref].phase.Stopping?
         || (s0.store[ref].execution.value.running && s.threads[t].at.SchedulerStopping? && answer.Throws?)
  {
    hide PortsOf, PlannedStreams, StepAtOnce, StepInOnce, StepAllocating, StepLoading, StepUndoing;
  }

  // ----- the rest of a start -----

  /**
   * The part of a start that follows prepare_locked. It returns if the scheduler already runs or can be
   * started, unless a teardown is in progress; a scheduler that throws leaves the phase at Starting.
   */
  predicate StartEnded(started: bool, schedulerStarts: bool, before: Resources, after: Resources)
    requires before.execution.Some?
  {
    && (started <==>
          && !before.phase.Stopping?
          && ((before.execution.value.running && before.phase.Running?) || schedulerStarts))
    && after == if started then
                  before.(execution := Some(before.execution.value.(running := true)), phase := LifecyclePhase.Running)
                else before.(phase := if before.phase.Stopping? then LifecyclePhase.Stopping else LifecyclePhase.Starting)
  }

  /**
   * The steps of a start behind prepare_locked, with nothing in between, do what the method StartExecution
   * promises: one step if it returns or throws at once, and otherwise a second one at the scheduler.
   */
  lemma StartSteps(s: State, t: ThreadId, ref: Ref, scheduler: Answer)
    requires IsWorking(s, t) && s.threads[t].at == Prepared(ref) && s.threads[t].calls != [] && s.threads[t].calls[0].StartCall?
    requires ref in s.store && s.store[ref].execution.Some?
    ensures var next := StepPrepared(s, t, ref);
      && IsWorking(next, t) && ref in next.store
      && if next.threads[t].at == SchedulerStarting(ref) then
           && next.threads[t].calls == s.threads[t].calls && next.store[ref].execution.Some?
           && var end := StepSchedulerStarting(next, t, ref, scheduler);
           && IsWorking(end, t) && (end.threads[t].at.Between? || end.threads[t].at.Raised?) && ref in end.store
           && StartEnded(end.threads[t].at.Between?, !scheduler.Throws?, s.store[ref], end.store[ref])
         else
           && (next.threads[t].at.Between? || next.threads[t].at.Raised?)
           && StartEnded(next.threads[t].at.Between?, next.threads[t].at.Between?, s.store[ref], next.store[ref])
  {
  }
}
