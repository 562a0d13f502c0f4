/** What readers of a session are told, from their check of the public state to their answer. */
module LifecycleReaders {
  import opened Common
  import opened Pmt
  import opened Sessions
  import opened SessionStreams
  import opened StreamBindings
  import opened SessionServices
  import opened FlowGraphs
  import opened Lifecycle
  import opened LifecycleInvariant
  import opened LifecycleProgress
  import opened LifecyclePorts
  import opened LifecycleTheorems
  import opened LifecycleOperations

  // ----- one step at a time -----

  /** A read goes on exactly if the session runs and, unless it is for settings, nobody operates on it. */
  lemma ReadBegins(yaml: Yaml, states: seq<State>, events: seq<Event>, i: nat, t: ThreadId, read: Read, id: SessionId)
    requires IsRun(yaml, states, events) && i < |events| && events[i] == BeginRead(t, read, id)
    ensures var s := states[i];
      states[i + 1] == s.(threads := s.threads[t :=
        if id !in s.service.sessions then Done(Failure(NotFound))
        else if s.service.sessions[id].state.Running? && (read.SettingsRead? || !exists u :: Operates(s, u, id)) then
          Reading(read, s.service.sessions[id], Looking)
        else if read.PlanRead? then Done(ReadResult(Absent))
        else Done(Failure(InvalidState))])
  {
    hide Step, Inv;
    RunStep(yaml, states, events, i);
    ServiceStateIsConsistent(yaml, states, events, i, id);
    hide IsRun;
    ReadIsDecided(yaml, states[i], t, read, id);
  }

  lemma ReadIsDecided(yaml: Yaml, s: State, t: ThreadId, read: Read, id: SessionId)
    requires Enabled(s, BeginRead(t, read, id))
    requires id in s.service.sessions ==>
      && s.service.sessions[id].id == id && id in s.service.phases
      && (!Busy(s.service.phases[id]) ==> PhaseOfState(s.service.sessions[id].state) == s.service.phases[id])
    ensures Step(yaml, s, BeginRead(t, read, id)) == s.(threads := s.threads[t :=
        if id !in s.service.sessions then Done(Failure(NotFound))
        else if s.service.sessions[id].state.Running? && (read.SettingsRead? || !Busy(s.service.phases[id])) then
          Reading(read, s.service.sessions[id], Looking)
        else if read.PlanRead? then Done(ReadResult(Absent))
        else Done(Failure(InvalidState))])
  {
  }

  /** The lookup finds what the table has for the session at that moment. */
  lemma ReadLooks(yaml: Yaml, s: State, t: ThreadId, answer: Answer)
    requires Enabled(s, Advance(t, answer)) && s.threads[t].Reading? && s.threads[t].place.Looking?
    ensures var id := s.threads[t].session.id;
      Step(yaml, s, Advance(t, answer)) == s.(threads := s.threads[t :=
        if id in s.table then s.threads[t].(place := ReadFetched(s.table[id])) else Done(ReadResult(Absent))])
  {
  }

  /** Under the mutex of the resources, the right answer to a read of a session that is stored like this. */
  ghost predicate RightAnswer(yaml: Yaml, session: Session, read: Read, found: Found) {
    match read
    case PlanRead =>
      (match RuntimePlan(yaml, session) case Some(plan) => found == Plan(plan) case None => found.Absent?)
    case HttpRead(id) =>
      if exists k :: 0 <= k < |PlannedStreams(yaml, session)| && PlannedStreams(yaml, session)[k].streamId == id
                     && PlannedStreams(yaml, session)[k].transport != "websocket"
      then found.Route? && found.binding.plan in PlannedStreams(yaml, session) && found.binding.plan.streamId == id
           && found.binding.plan.transport != "websocket" && Wired(found.binding)
      else found.Absent?
    case WebSocketRead(id) =>
      if exists k :: 0 <= k < |PlannedStreams(yaml, session)| && PlannedStreams(yaml, session)[k].streamId == id
                     && PlannedStreams(yaml, session)[k].transport == "websocket"
      then found.Route? && found.binding.plan in PlannedStreams(yaml, session) && found.binding.plan.streamId == id
           && found.binding.plan.transport == "websocket" && Wired(found.binding)
      else found.Absent?
    case SettingsRead => found.Live?
  }

  lemma RightAnswerOfBindings(yaml: Yaml, session: Session, resources: Resources, read: Read)
    requires IsLive(resources) && PlansOf(resources.bindings) == PlannedStreams(yaml, session) && AsAllocated(resources.bindings)
    ensures RightAnswer(yaml, session, read, Answered(resources, read))
    ensures Answered(resources, read).Route? ==> Answered(resources, read).binding in resources.bindings
  {
    hide FindBinding, Wired;
    AllWired(resources.bindings);
    var bindings, plans := resources.bindings, PlannedStreams(yaml, session);
    assert |bindings| == |plans| && forall k :: 0 <= k < |bindings| ==> plans[k] == bindings[k].plan;
    match read {
      case HttpRead(id) => FindBindingFinds(bindings, id, false);
      case WebSocketRead(id) => FindBindingFinds(bindings, id, true);
      case PlanRead => PlansAreNeverEmpty(yaml, session);
      case SettingsRead =>
    }
  }

  lemma PlansAreNeverEmpty(yaml: Yaml, session: Session)
    ensures RuntimePlan(yaml, session) != Some([])
  {
  }

  /**
   * At the moment a reader takes the mutex: if the resources it found are still those of the session
   * and execute, it gets the right answer for the session as it is stored, and a route leads to a port
   * that this session alone owns; otherwise it gets nothing. A session that runs with nobody operating
   * on it executes.
   */
  lemma ReadersSeeTheStoredSession(yaml: Yaml, states: seq<State>, events: seq<Event>, i: nat, t: ThreadId, answer: Answer)
    returns (found: Found)
    requires IsRun(yaml, states, events) && i < |events| && events[i] == Advance(t, answer)
    requires t in states[i].threads && states[i].threads[t].Reading? && states[i].threads[t].place.ReadFetched?
    ensures var s, th := states[i], states[i].threads[t];
      var id, ref := th.session.id, th.place.ref;
      && states[i + 1] == s.(locks := s.locks[ref := t], threads := s.threads[t := th.(place := ReadEntered(ref, found))])
      && (if id in s.table && s.table[id] == ref && Executes(s, id)
          then id in s.service.sessions && RightAnswer(yaml, s.service.sessions[id], th.read, found)
          else found.Absent?)
      && (found.Route? ==>
            && Owns(s, ObjectOwner(ref), found.binding.internal.port)
            && forall owner :: Owns(s, owner, found.binding.internal.port) ==> owner == ObjectOwner(ref))
      && (id in s.service.sessions && s.service.sessions[id].state.Running? && (forall u :: !Operates(s, u, id)) ==> Executes(s, id))
  {
    hide Step, Inv, RightAnswer, Enabled, PlannedStreams, PortInv;
    RunKeeps(yaml, states, events, i);
    RunPorts(yaml, states, events, i);
    RunStep(yaml, states, events, i);
    found := LockedAnswer(yaml, states[i], t, answer);
    var id := states[i].threads[t].session.id;
    if id in states[i].service.sessions && states[i].service.sessions[id].state.Running? && forall u :: !Operates(states[i], u, id) {
      RunningExecutes(yaml, states, events, i, id);
    }
    hide IsRun;
    if found.Route? { RoutesAreOwned(yaml, states[i], states[i].threads[t].place.ref, found.binding); }
  }

  lemma RoutesAreOwned(yaml: Yaml, s: State, ref: Ref, binding: StreamBinding)
    requires Inv(yaml, s) && PortInv(s) && ref in s.store && ref !in s.locks && binding in s.store[ref].bindings
    requires IsLive(s.store[ref])
    ensures Owns(s, ObjectOwner(ref), binding.internal.port)
    ensures forall owner :: Owns(s, owner, binding.internal.port) ==> owner == ObjectOwner(ref)
  {
    hide ServiceInv, ThreadInv, LockInv;
    assert s.store[ref].released == 0 by { assert ResourcesOk(yaml, s, ref); assert forall t :: !LockedBy(s, ref, t); }
    assert StillHeld(s.store[ref]) == s.store[ref].bindings;
    var k :| 0 <= k < |s.store[ref].bindings| && s.store[ref].bindings[k] == binding;
    assert Owns(s, ObjectOwner(ref), binding.internal.port);
  }

  lemma LockedAnswer(yaml: Yaml, s: State, t: ThreadId, answer: Answer) returns (found: Found)
    requires Inv(yaml, s) && Enabled(s, Advance(t, answer)) && s.threads[t].Reading? && s.threads[t].place.ReadFetched?
    ensures var th := s.threads[t];
      var id, ref := th.session.id, th.place.ref;
      && Step(yaml, s, Advance(t, answer))
         == s.(locks := s.locks[ref := t], threads := s.threads[t := th.(place := ReadEntered(ref, found))])
      && (if id in s.table && s.table[id] == ref && Executes(s, id)
          then id in s.service.sessions && RightAnswer(yaml, s.service.sessions[id], th.read, found)
          else found.Absent?)
      && (found.Route? ==> ref in s.store && ref !in s.locks && IsLive(s.store[ref]) && found.binding in s.store[ref].bindings)
  {
    var th := s.threads[t];
    var ref := th.place.ref;
    found := Answered(s.store[ref], th.read);
    assert ThreadOk(yaml, s, th);
    if IsLive(s.store[ref]) {
      LiveResourcesServeTheStoredGraph(yaml, s, ref);
      RightAnswerOfBindings(yaml, s.service.sessions[th.session.id], s.store[ref], th.read);
    }
    hide Inv, RightAnswer, Answered, PlannedStreams;
  }

  lemma RunningExecutes(yaml: Yaml, states: seq<State>, events: seq<Event>, i: nat, id: SessionId)
    requires IsRun(yaml, states, events) && i < |states|
    requires id in states[i].service.sessions && states[i].service.sessions[id].state.Running? && forall u :: !Operates(states[i], u, id)
    ensures Executes(states[i], id)
  {
    hide Step, Inv, Serves;
    ServiceStateIsConsistent(yaml, states, events, i, id);
    ServiceAgreesWithRuntime(yaml, states, events, i, id);
  }

  // ----- a whole read -----

  /** A step of a thread that works on another session keeps the record of this one. */
  lemma WorkingKeepsOtherSessions(yaml: Yaml, s: State, u: ThreadId, answer: Answer, id: SessionId)
    requires Inv(yaml, s) && Enabled(s, Advance(u, answer)) && IsWorking(s, u) && s.threads[u].session.id != id
    requires id in s.service.sessions
    ensures var s' := StepWorking(yaml, s, u, answer);
      id in s'.service.sessions && s'.service.sessions[id] == s.service.sessions[id]
  {
    hide Inv, GoodStep;
    if InCall(s.threads[u].at) && !s.threads[u].at.Erasing? {
      hide StepWorking;
      InsideIsGood(yaml, s, u, answer);
      GoodStepKeepsService(yaml, s, StepWorking(yaml, s, u, answer), u);
    } else {
      if s.threads[u].session.id in s.service.sessions { KnownUnderItsId(yaml, s, s.threads[u].session.id); }
      OutsideKeepsOtherSessions(s, u, id);
      hide StepBetween, StepFetched, StepEntered, StepAtOnce, StepInOnce, StepReleasing, StepAllocating, StepLoading, StepUndoing,
           StepPrepared, StepSchedulerStarting, StepSchedulerStopping, StepTorndown, StepRaised;
    }
  }

  lemma GoodStepKeepsService(yaml: Yaml, s: State, s': State, t: ThreadId)
    requires IsWorking(s, t) && InCall(s.threads[t].at) && GoodStep(yaml, s, s', t, s.threads[t].at.ref)
    ensures s'.service == s.service
  {
    hide WorkingOk, Settled, Vacant, MidBody, Holds;
  }

  lemma OutsideKeepsOtherSessions(s: State, u: ThreadId, id: SessionId)
    requires IsWorking(s, u) && s.threads[u].session.id != id && id in s.service.sessions
    requires s.threads[u].session.id in s.service.sessions ==>
        s.service.sessions[s.threads[u].session.id].id == s.threads[u].session.id
    ensures var s' := StepBetween(s, u); id in s'.service.sessions && s'.service.sessions[id] == s.service.sessions[id]
    ensures var s' := StepRaised(s, u); id in s'.service.sessions && s'.service.sessions[id] == s.service.sessions[id]
  {
    hide FailureMessage;
  }

  lemma KnownUnderItsId(yaml: Yaml, s: State, id: SessionId)
    requires Inv(yaml, s) && id in s.service.sessions
    ensures s.service.sessions[id].id == id
  {
    hide ThreadInv, LockInv, StoreInv, RuntimeAgrees, PublicStateAgrees;
    assert SessionOk(s, id);
  }

  lemma WorkingElsewhere(yaml: Yaml, s: State, u: ThreadId, answer: Answer, id: SessionId)
    requires Inv(yaml, s) && Enabled(s, Advance(u, answer)) && IsWorking(s, u) && s.threads[u].session.id != id
    requires id in s.service.sessions
    ensures var s' := StepWorking(yaml, s, u, answer);
      SameEntry(s, s', id) && id in s'.service.sessions && s'.service.sessions[id] == s.service.sessions[id]
  {
    if id in s.table { EntryIsThere(yaml, s, id); }
    hide Inv, StepWorking, Confined;
    WorkingKeepsOtherEntries(yaml, s, u, answer, id);
    WorkingKeepsOtherSessions(yaml, s, u, answer, id);
    WorkingIsConfined(yaml, s, u, answer);
    ConfinedKeepsEntry(s, StepWorking(yaml, s, u, answer), u, id);
  }

  /** Nothing changes about a stored session that nobody operates on. */
  lemma UnattendedStays(yaml: Yaml, s: State, event: Event, id: SessionId)
    requires Inv(yaml, s) && Enabled(s, event) && id in s.service.sessions && forall u :: !Operates(s, u, id)
    ensures var s' := Step(yaml, s, event);
      SameEntry(s, s', id) && id in s'.service.sessions && s'.service.sessions[id] == s.service.sessions[id]
  {
    if event.Advance? && IsWorking(s, event.thread) {
      hide Inv, StepWorking, SameEntry;
      assert !Operates(s, event.thread, id);
      WorkingElsewhere(yaml, s, event.thread, event.answer, id);
    } else {
      EntriesAreOld(yaml, s, id);
      BystandersKeepEntries(yaml, s, event);
      BystandersKeepSessions(yaml, s, event, id);
      hide Inv, Step;
    }
  }

  lemma BystandersKeepSessions(yaml: Yaml, s: State, event: Event, id: SessionId)
    requires Enabled(s, event) && id in s.service.sessions && !(event.Advance? && IsWorking(s, event.thread))
    ensures var s' := Step(yaml, s, event); id in s'.service.sessions && s'.service.sessions[id] == s.service.sessions[id]
  {
    hide StepWorking, Answered, Open, Program, PhaseOf;
  }

  /** How far a read of this session has come, with the answer once it has one. */
  ghost predicate ReadSoFar(yaml: Yaml, s: State, t: ThreadId, read: Read, session: Session) {
    && t in s.threads && s.threads[t].Reading? && s.threads[t].read == read && s.threads[t].session == session
    && session.id in s.service.sessions && s.service.sessions[session.id] == session && Executes(s, session.id)
    && match s.threads[t].place
       case Looking => true
       case ReadFetched(ref) => s.table[session.id] == ref
       case ReadEntered(_, found) => RightAnswer(yaml, session, read, found)
  }

  lemma ReadGoesOn(yaml: Yaml, s: State, event: Event, t: ThreadId, read: Read, session: Session)
    requires Inv(yaml, s) && Enabled(s, event) && ReadSoFar(yaml, s, t, read, session)
    requires forall u :: !Operates(s, u, session.id)
    ensures var s' := Step(yaml, s, event);
      && t in s'.threads
      && (ReadSoFar(yaml, s', t, read, session)
          || (s'.threads[t].Done? && s'.threads[t].outcome.ReadResult? && RightAnswer(yaml, session, read, s'.threads[t].outcome.found)))
  {
    UnattendedStays(yaml, s, event, session.id);
    hide RightAnswer;
    if event.Advance? && event.thread == t {
      if s.threads[t].place.ReadFetched? { var found := LockedAnswer(yaml, s, t, event.answer); }
      hide Inv, Answered;
    } else {
      OthersKeepReader(yaml, s, event, t);
      hide Inv, Step;
    }
  }

  lemma OthersKeepReader(yaml: Yaml, s: State, event: Event, t: ThreadId)
    requires Inv(yaml, s) && Enabled(s, event) && t in s.threads && s.threads[t].Reading? && !(event.Advance? && event.thread == t)
    ensures var s' := Step(yaml, s, event); t in s'.threads && s'.threads[t] == s.threads[t]
  {
    hide Inv, StepWorking, Answered, Open, Claim, Created;
    if event.Advance? && IsWorking(s, event.thread) { WorkingIsConfined(yaml, s, event.thread, event.answer); }
  }

  lemma {:induction false} ReadAlong(yaml: Yaml, states: seq<State>, events: seq<Event>, t: ThreadId, read: Read, id: SessionId,
                                     b: nat, e: nat, j: nat)
    requires IsRun(yaml, states, events) && b < j <= e < |states| && events[b] == BeginRead(t, read, id)
    requires forall k :: b < k < e ==> t in states[k].threads && states[k].threads[t].Reading?
    requires id in states[b].service.sessions && states[b].service.sessions[id].state.Running?
    requires forall k, u :: b <= k < e ==> !Operates(states[k], u, id)
    ensures states[b].service.sessions[id].id == id && t in states[j].threads
    ensures ReadSoFar(yaml, states[j], t, read, states[b].service.sessions[id])
         || (states[j].threads[t].Done? && states[j].threads[t].outcome.ReadResult?
             && RightAnswer(yaml, states[b].service.sessions[id], read, states[j].threads[t].outcome.found))
    decreases j
  {
    hide Step, Inv, RightAnswer;
    ServiceStateIsConsistent(yaml, states, events, b, id);
    var session := states[b].service.sessions[id];
    if j == b + 1 {
      ReadBegins(yaml, states, events, b, t, read, id);
      RunningExecutes(yaml, states, events, b, id);
    } else {
      ReadAlong(yaml, states, events, t, read, id, b, e, j - 1);
      RunKeeps(yaml, states, events, j - 1);
      RunStep(yaml, states, events, j - 1);
      assert states[j - 1].threads[t].Reading?;
      var s := states[j - 1];
      assert forall u :: !Operates(s, u, id);
      hide IsRun;
      ReadGoesOn(yaml, s, events[j - 1], t, read, session);
    }
  }

  /**
   * A read of a running session during which nobody operates on the session ends with the right answer,
   * whatever happens to other sessions and whoever else reads.
   */
  lemma UndisturbedRead(yaml: Yaml, states: seq<State>, events: seq<Event>, t: ThreadId, read: Read, id: SessionId, b: nat, e: nat)
    requires IsRun(yaml, states, events) && b < e < |states| && events[b] == BeginRead(t, read, id)
    requires forall k :: b < k < e ==> t in states[k].threads && states[k].threads[t].Reading?
    requires t in states[e].threads && states[e].threads[t].Done?
    requires id in states[b].service.sessions && states[b].service.sessions[id].state.Running?
    requires forall k, u :: b <= k < e ==> !Operates(states[k], u, id)
    ensures states[e].threads[t].outcome.ReadResult?
    ensures RightAnswer(yaml, states[b].service.sessions[id], read, states[e].threads[t].outcome.found)
  {
    hide Step, Inv, RightAnswer;
    ReadAlong(yaml, states, events, t, read, id, b, e, e);
  }

  /**
   * Such a disturbance is possible: here a reader has looked its session up before a restart and takes
   * the mutex after it. The session runs and nobody operates on it, but the reader is told nothing.
   */
  lemma ARestartCanMissAReader(yaml: Yaml)
    requires yaml("graph") == None
    ensures var running := NewSession("a", "", "graph", None).(state := SessionState.Running);
      var executing := FreshResources("a").(generation := 1, phase := LifecyclePhase.Running, execution := Some(Execution(true, None)));
      var s := State(ServiceState(map["a" := running], map["a" := LifecyclePhase.Running]), map["a" := 1],
                     map[0 := FreshResources("a"), 1 := executing], 2, map[], Returned(false), {}, {},
                     map[0 := Reading(SettingsRead, running, ReadFetched(0))]);
      && Inv(yaml, s) && (forall u :: !Operates(s, u, "a")) && Enabled(s, Advance(0, Returns))
      && Step(yaml, s, Advance(0, Returns)).threads[0] == Reading(SettingsRead, running, ReadEntered(0, Absent))
  {
    var running := NewSession("a", "", "graph", None).(state := SessionState.Running);
    var executing := FreshResources("a").(generation := 1, phase := LifecyclePhase.Running, execution := Some(Execution(true, None)));
    assert Vacant(FreshResources("a"));
    assert RuntimePlan(yaml, running) == None && LoadedGraph(yaml, "graph", []) == Ok(None);
    assert PlansOf([]) == [] && Serves(yaml, running, executing);
  }
}
