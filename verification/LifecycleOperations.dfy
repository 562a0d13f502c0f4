/** What an operation of the session service has done by the time it ends, over whole runs and under every interleaving. */
module LifecycleOperations {
  import opened Common
  import opened Pmt
  import opened Sessions
  import opened SessionStreams
  import opened StreamBindings
  import opened SessionServices
  import opened FlowGraphs
  import opened Lifecycle
  import opened LifecycleInvariant
  import opened LifecycleProgress
  import opened LifecycleTheorems

  // ----- one operation within a run -----

  /** Thread `t` begins this operation with event `b`, and works on it up to the step that leads to state `e`. */
  ghost predicate Spans(yaml: Yaml, states: seq<State>, events: seq<Event>, t: ThreadId, operation: Operation, id: SessionId,
                        b: nat, e: nat) {
    && IsRun(yaml, states, events) && b + 1 < e < |states|
    && events[b] == Begin(t, operation, id)
    && forall k :: b < k < e ==> IsWorking(states[k], t)
  }

  /** The same, with an end at which the operation has succeeded. */
  ghost predicate Finishes(yaml: Yaml, states: seq<State>, events: seq<Event>, t: ThreadId, operation: Operation, id: SessionId,
                           b: nat, e: nat) {
    Spans(yaml, states, events, t, operation, id, b, e) && t in states[e].threads && states[e].threads[t] == Done(Finished)
  }

  // ----- who changes what -----

  /** A step of a working thread leaves the table entries of other sessions alone. */
  lemma WorkingKeepsOtherEntries(yaml: Yaml, s: State, t: ThreadId, answer: Answer, other: SessionId)
    requires Inv(yaml, s) && Enabled(s, Advance(t, answer)) && IsWorking(s, t) && other != s.threads[t].session.id
    ensures var s' := StepWorking(yaml, s, t, answer);
      && (other in s'.table <==> other in s.table) && (other in s.table ==> s'.table[other] == s.table[other])
      && s.nextRef <= s'.nextRef
  {
    hide Inv, GoodStep, StepFetched, StepEntered, StepAtOnce, StepInOnce, StepReleasing, StepAllocating, StepLoading,
         StepUndoing, StepPrepared, StepSchedulerStarting, StepSchedulerStopping, StepTorndown;
    var at := s.threads[t].at;
    if InCall(at) && !at.Erasing? {
      InsideIsGood(yaml, s, t, answer);
      GoodStepKeepsTable(yaml, s, StepWorking(yaml, s, t, answer), t);
    }
  }

  lemma GoodStepKeepsTable(yaml: Yaml, s: State, s': State, t: ThreadId)
    requires IsWorking(s, t) && InCall(s.threads[t].at) && GoodStep(yaml, s, s', t, s.threads[t].at.ref)
    ensures s'.table == s.table && s'.nextRef == s.nextRef
  {
    hide WorkingOk, Settled, Vacant, MidBody, Holds;
  }

  /** What the table and the store hold for a session. */
  ghost predicate SameEntry(s: State, s': State, id: SessionId) {
    && (id in s'.table <==> id in s.table)
    && (id in s.table ==>
          && s'.table[id] == s.table[id]
          && s.table[id] in s.store && s.table[id] in s'.store && s'.store[s.table[id]] == s.store[s.table[id]])
  }

  lemma EntryIsThere(yaml: Yaml, s: State, id: SessionId)
    requires Inv(yaml, s) && id in s.table
    ensures s.table[id] in s.store && s.store[s.table[id]].sessionId == id
    ensures forall t :: IsWorking(s, t) && InCall(s.threads[t].at) ==>
        s.threads[t].at.ref in s.store && s.store[s.threads[t].at.ref].sessionId == s.threads[t].session.id
  {
    hide ServiceInv, LockInv, PlaceOk, CallsDone, ResourcesOk;
    forall t | IsWorking(s, t) && InCall(s.threads[t].at)
      ensures s.threads[t].at.ref in s.store && s.store[s.threads[t].at.ref].sessionId == s.threads[t].session.id
    {
      assert ThreadOk(yaml, s, s.threads[t]);
    }
  }

  lemma OtherSessions(yaml: Yaml, s: State, t: ThreadId, u: ThreadId)
    requires Inv(yaml, s) && IsWorking(s, t) && IsWorking(s, u) && t != u
    ensures s.threads[t].session.id != s.threads[u].session.id
  {
    hide ServiceInv, LockInv, StoreInv, ThreadOk;
  }

  lemma EntriesAreOld(yaml: Yaml, s: State, id: SessionId)
    requires Inv(yaml, s)
    ensures id in s.table ==> s.table[id] in s.store
    ensures forall ref :: ref in s.store ==> ref < s.nextRef
  {
    hide ServiceInv, ThreadInv, LockInv, ResourcesOk;
  }

  /** The steps that run nothing leave table and store alone. */
  lemma BystandersKeepEntries(yaml: Yaml, s: State, event: Event)
    requires Enabled(s, event) && !(event.Advance? && IsWorking(s, event.thread))
    ensures var s' := Step(yaml, s, event); s'.table == s.table && s'.store == s.store && s'.nextRef == s.nextRef
  {
    hide StepWorking, Answered, Open, Claim, Created, Program;
  }

  lemma AnotherKeepsEntry(yaml: Yaml, s: State, u: ThreadId, answer: Answer, t: ThreadId)
    requires Inv(yaml, s) && Enabled(s, Advance(u, answer)) && IsWorking(s, t) && IsWorking(s, u) && t != u
    ensures var s', id := StepWorking(yaml, s, u, answer), s.threads[t].session.id;
      SameEntry(s, s', id) && s.nextRef <= s'.nextRef
  {
    var id := s.threads[t].session.id;
    if id in s.table { EntryIsThere(yaml, s, id); }
    OtherSessions(yaml, s, t, u);
    hide Inv, StepWorking, Confined;
    WorkingKeepsOtherEntries(yaml, s, u, answer, id);
    WorkingIsConfined(yaml, s, u, answer);
    ConfinedKeepsEntry(s, StepWorking(yaml, s, u, answer), u, id);
  }

  /** While a thread operates on a session, nobody else touches its entry. */
  lemma OthersKeepEntry(yaml: Yaml, s: State, event: Event, t: ThreadId)
    requires Inv(yaml, s) && Enabled(s, event) && IsWorking(s, t) && !(event.Advance? && event.thread == t)
    ensures var s', id := Step(yaml, s, event), s.threads[t].session.id;
      && t in s'.threads && s'.threads[t] == s.threads[t]
      && SameEntry(s, s', id) && s.nextRef <= s'.nextRef
  {
    OthersKeepThread(yaml, s, event, t);
    if event.Advance? && IsWorking(s, event.thread) {
      AnotherKeepsEntry(yaml, s, event.thread, event.answer, t);
      hide Inv, StepWorking, SameEntry;
    } else {
      EntriesAreOld(yaml, s, s.threads[t].session.id);
      BystandersKeepEntries(yaml, s, event);
      hide Inv, Step;
    }
  }

  lemma ConfinedKeepsEntry(s: State, s': State, u: ThreadId, id: SessionId)
    requires Confined(s, s', u) && IsWorking(s, u)
    requires (id in s'.table <==> id in s.table) && (id in s.table ==> s'.table[id] == s.table[id])
    requires id in s.table ==> s.table[id] in s.store && (InCall(s.threads[u].at) ==> s.threads[u].at.ref != s.table[id])
    ensures SameEntry(s, s', id)
  {
  }

  // ----- the calls an operation has made -----

  /** The runtime call that thread `t` comes back from at a step, if it comes back from one. */
  function CallReturned(s: State, event: Event, s': State, t: ThreadId): seq<RuntimeCall> {
    if event.Advance? && event.thread == t && IsWorking(s, t) && IsWorking(s', t) && |s'.threads[t].calls| < |s.threads[t].calls|
    then [s.threads[t].calls[0]] else []
  }

  /** The runtime calls that thread `t` has come back from between two states, in order. */
  function CallsReturned(states: seq<State>, events: seq<Event>, t: ThreadId, i: nat, j: nat): seq<RuntimeCall>
    requires i <= j < |states| && |states| == |events| + 1
    decreases j
  {
    if i == j then []
    else CallsReturned(states, events, t, i, j - 1) + CallReturned(states[j - 1], events[j - 1], states[j], t)
  }

  /** Resources through a step of a prepare or a start: an execution is kept, or a first one is built. */
  predicate KeptOrBuilt(before: Resources, after: Resources) {
    && (before.execution.Some? ==>
          && after.execution.Some? && after.execution.value.graph == before.execution.value.graph
          && after.bindings == before.bindings && after.generation == before.generation)
    && (before.execution.None? ==> after.generation == before.generation + (if after.execution.Some? then 1 else 0))
  }

  /**
   * A step of thread `t` on its own session: it goes on with its runtime call, or comes back from it, or
   * ends the operation. What becomes of the session's entry depends on the call.
   */
  ghost predicate Moves(s: State, s': State, t: ThreadId)
    requires IsWorking(s, t)
  {
    var th, id := s.threads[t], s.threads[t].session.id;
    && t in s'.threads && s.nextRef <= s'.nextRef
    && (s'.threads[t].Done? ==>
          && s'.table == s.table && s'.store == s.store
          && (s'.threads[t].outcome.Finished? ==> th.at.Between? && th.calls == []))
    && (!s'.threads[t].Done? ==>
          && s'.threads[t].Working? && s'.threads[t].session == th.session && s'.threads[t].operation == th.operation
          && th.calls != []
          && (s'.threads[t].calls == th.calls || s'.threads[t].calls == th.calls[1..])
          && match th.calls[0]
             case PrepareCall => StartingMoves(s, s', id)
             case StartCall => StartingMoves(s, s', id)
             case StopCall => StoppingMoves(s, s', id) && (id in s.table ==> id in s'.table)
             case DestroyCall => StoppingMoves(s, s', id) && (s'.threads[t].calls != th.calls ==> id !in s'.table))
  }

  /** No entry is removed, a new one is fresh, and an existing one keeps or builds its execution. */
  ghost predicate StartingMoves(s: State, s': State, id: SessionId) {
    && (id in s.table ==>
          && id in s'.table && s'.table[id] == s.table[id] && s.table[id] in s.store && s.table[id] in s'.store
          && KeptOrBuilt(s.store[s.table[id]], s'.store[s.table[id]]))
    && (id !in s.table && id in s'.table ==>
          && s'.table[id] >= s.nextRef && s'.table[id] in s'.store
          && s'.store[s'.table[id]].execution.None? && s'.store[s'.table[id]].generation == 0)
  }

  /** No entry is added, and one that stays does not change its generation. */
  ghost predicate StoppingMoves(s: State, s': State, id: SessionId) {
    id in s'.table ==>
      && id in s.table && s'.table[id] == s.table[id] && s.table[id] in s.store && s.table[id] in s'.store
      && s'.store[s.table[id]].generation == s.store[s.table[id]].generation
  }

  lemma NewEntryMoves(s: State, t: ThreadId)
    requires IsWorking(s, t) && s.threads[t].calls != [] && Starts(s.threads[t].calls[0])
    requires s.threads[t].session.id !in s.table && s.threads[t].at.Between?
    ensures Moves(s, StepBetween(s, t), t)
  {
  }

  lemma LookedUpMoves(s: State, t: ThreadId)
    requires IsWorking(s, t) && s.threads[t].at.Between?
    requires s.threads[t].session.id in s.table ==> s.table[s.threads[t].session.id] in s.store
    requires s.threads[t].calls == [] || s.threads[t].session.id in s.table || !Starts(s.threads[t].calls[0])
    ensures Moves(s, StepBetween(s, t), t)
  {
    hide Conclude;
    assert StepBetween(s, t).store == s.store && StepBetween(s, t).table == s.table;
  }

  lemma BetweenMoves(yaml: Yaml, s: State, t: ThreadId)
    requires Inv(yaml, s) && IsWorking(s, t) && s.threads[t].at.Between?
    ensures Moves(s, StepBetween(s, t), t)
  {
    var th := s.threads[t];
    EntriesAreOld(yaml, s, th.session.id);
    hide Inv, Moves, StepBetween;
    if th.calls == [] || th.session.id in s.table || !Starts(th.calls[0]) { LookedUpMoves(s, t); } else { NewEntryMoves(s, t); }
  }

  lemma FetchedMoves(yaml: Yaml, s: State, t: ThreadId, ref: Ref)
    requires Inside(yaml, s, t, ref) && s.threads[t].at.Fetched?
    ensures Moves(s, StepFetched(s, t, ref), t)
  {
    hide PortsOf, Settled, Vacant, IsLive, ContractErrorOf;
  }

  lemma EnteredMoves(yaml: Yaml, s: State, t: ThreadId, ref: Ref)
    requires Inside(yaml, s, t, ref) && s.threads[t].at.Entered?
    ensures Moves(s, StepEntered(yaml, s, t, ref), t)
  {
    hide PortsOf, Settled, IsLive, ContractErrorOf;
  }

  lemma BootstrapMoves(yaml: Yaml, s: State, t: ThreadId, ref: Ref, answer: Answer)
    requires Inside(yaml, s, t, ref) && (s.threads[t].at.AtOnce? || s.threads[t].at.InOnce?)
    ensures s.threads[t].at.AtOnce? ==> Moves(s, StepAtOnce(s, t, ref), t)
    ensures s.threads[t].at.InOnce? ==> Moves(s, StepInOnce(s, t, ref, answer), t)
  {
    hide PortsOf, Settled, IsLive, ContractErrorOf;
  }

  lemma ReleasingMoves(yaml: Yaml, s: State, t: ThreadId, ref: Ref)
    requires Inside(yaml, s, t, ref) && s.threads[t].at.Releasing?
    ensures Moves(s, StepReleasing(yaml, s, t, ref, s.threads[t].at.next), t)
  {
    hide PortsOf, Settled, IsLive, ContractErrorOf, PlannedStreams;
  }

  lemma AllocatingMoves(yaml: Yaml, s: State, t: ThreadId, ref: Ref, answer: Answer)
    requires Inside(yaml, s, t, ref) && s.threads[t].at.Allocating?
    ensures Moves(s, StepAllocating(s, t, ref, answer), t)
  {
    hide PortsOf, Settled, IsLive, ContractErrorOf, PlannedStreams, FirstFree, BindStream, PlansOf, AsAllocated;
  }

  lemma LoadingMoves(yaml: Yaml, s: State, t: ThreadId, ref: Ref, answer: Answer)
    requires Inside(yaml, s, t, ref) && s.threads[t].at.Loading?
    ensures Moves(s, StepLoading(yaml, s, t, ref, s.threads[t].at.built, answer), t)
  {
    hide PortsOf, Settled, IsLive, ContractErrorOf, PlannedStreams, LoadedGraph, PlansOf, AsAllocated;
  }

  lemma UndoingMoves(yaml: Yaml, s: State, t: ThreadId, ref: Ref)
    requires Inside(yaml, s, t, ref) && s.threads[t].at.Undoing?
    ensures Moves(s, StepUndoing(s, t, ref, s.threads[t].at.built), t)
  {
    hide PortsOf, Settled, IsLive;
  }

  lemma SchedulerMoves(yaml: Yaml, s: State, t: ThreadId, ref: Ref, answer: Answer)
    requires Inside(yaml, s, t, ref)
    ensures s.threads[t].at.Prepared? ==> Moves(s, StepPrepared(s, t, ref), t)
    ensures s.threads[t].at.SchedulerStarting? ==> Moves(s, StepSchedulerStarting(s, t, ref, answer), t)
    ensures s.threads[t].at.SchedulerStopping? ==> Moves(s, StepSchedulerStopping(s, t, ref, answer), t)
  {
    hide PortsOf, Settled, IsLive, Serves, ContractErrorOf, Vacant;
  }

  lemma TorndownMoves(yaml: Yaml, s: State, t: ThreadId, ref: Ref)
    requires Inside(yaml, s, t, ref) && s.threads[t].at.Torndown?
    ensures Moves(s, StepTorndown(s, t, ref), t)
  {
    hide PortsOf, Settled, IsLive;
  }

  lemma ErasingMoves(yaml: Yaml, s: State, t: ThreadId, ref: Ref)
    requires Inside(yaml, s, t, ref) && s.threads[t].at.Erasing?
    ensures Moves(s, StepErasing(s, t, ref), t)
  {
    hide PortsOf, Settled, IsLive;
  }

  lemma RaisedMoves(s: State, t: ThreadId)
    requires IsWorking(s, t) && s.threads[t].at.Raised?
    ensures Moves(s, StepRaised(s, t), t)
  {
    hide RecordFailure, FailureMessage;
  }

  lemma OwnStepMoves(yaml: Yaml, s: State, t: ThreadId, answer: Answer)
    requires Inv(yaml, s) && Enabled(s, Advance(t, answer)) && IsWorking(s, t)
    ensures Moves(s, StepWorking(yaml, s, t, answer), t)
  {
    hide Inv, Inside, Moves, StepBetween, StepFetched, StepEntered, StepAtOnce, StepInOnce, StepReleasing, StepAllocating, StepLoading,
         StepUndoing, StepPrepared, StepSchedulerStarting, StepSchedulerStopping, StepTorndown, StepErasing, StepRaised;
    if InCall(s.threads[t].at) { WhileInside(yaml, s, t); }
    match s.threads[t].at {
      case Between => BetweenMoves(yaml, s, t);
      case Fetched(ref) => FetchedMoves(yaml, s, t, ref);
      case Entered(ref) => EnteredMoves(yaml, s, t, ref);
      case AtOnce(ref) => BootstrapMoves(yaml, s, t, ref, answer);
      case InOnce(ref) => BootstrapMoves(yaml, s, t, ref, answer);
      case Releasing(ref, _) => ReleasingMoves(yaml, s, t, ref);
      case Allocating(ref, _, _) => AllocatingMoves(yaml, s, t, ref, answer);
      case Loading(ref, _) => LoadingMoves(yaml, s, t, ref, answer);
      case Undoing(ref, _) => UndoingMoves(yaml, s, t, ref);
      case Prepared(ref) => SchedulerMoves(yaml, s, t, ref, answer);
      case SchedulerStarting(ref) => SchedulerMoves(yaml, s, t, ref, answer);
      case SchedulerStopping(ref) => SchedulerMoves(yaml, s, t, ref, answer);
      case Torndown(ref) => TorndownMoves(yaml, s, t, ref);
      case Erasing(ref) => ErasingMoves(yaml, s, t, ref);
      case Raised => RaisedMoves(s, t);
    }
  }

  lemma {:induction false} CallsAreCounted(yaml: Yaml, states: seq<State>, events: seq<Event>, t: ThreadId, operation: Operation,
                                          id: SessionId, b: nat, e: nat, j: nat)
    requires Spans(yaml, states, events, t, operation, id, b, e) && b < j < e
    ensures states[j].threads[t].session == states[b + 1].threads[t].session
    ensures states[j].threads[t].operation == states[b + 1].threads[t].operation
    ensures CallsReturned(states, events, t, b + 1, j) + states[j].threads[t].calls == states[b + 1].threads[t].calls
    decreases j
  {
    hide Step, Inv, Enabled;
    if j == b + 1 {
      assert [] + states[j].threads[t].calls == states[j].threads[t].calls;
    } else {
      CallsAreCounted(yaml, states, events, t, operation, id, b, e, j - 1);
      RunKeeps(yaml, states, events, j - 1);
      RunStep(yaml, states, events, j - 1);
      assert IsWorking(states[j - 1], t) && IsWorking(states[j], t);
      hide IsRun;
      CallsAtStep(yaml, states[j - 1], events[j - 1], t);
    }
  }

  lemma CallsAtStep(yaml: Yaml, s: State, event: Event, t: ThreadId)
    requires Inv(yaml, s) && Enabled(s, event) && IsWorking(s, t) && IsWorking(Step(yaml, s, event), t)
    ensures var s' := Step(yaml, s, event);
      && s'.threads[t].session == s.threads[t].session && s'.threads[t].operation == s.threads[t].operation
      && CallReturned(s, event, s', t) + s'.threads[t].calls == s.threads[t].calls
  {
    hide Inv, StepWorking, StepReading, StepBegin, StepBeginRead, Created, StartingMoves, StoppingMoves;
    if event.Advance? && event.thread == t {
      OwnStepMoves(yaml, s, t, event.answer);
    } else {
      OthersKeepThread(yaml, s, event, t);
    }
  }

  /** What the opening section of an operation leaves behind. */
  lemma Begun(yaml: Yaml, states: seq<State>, events: seq<Event>, t: ThreadId, operation: Operation, id: SessionId, b: nat, e: nat)
    requires Spans(yaml, states, events, t, operation, id, b, e)
    ensures id in states[b].service.sessions
    ensures var s, s', session := states[b], states[b + 1], states[b].service.sessions[id];
      && s'.threads[t].session == session && session.id == id && s'.threads[t].operation == operation
      && s'.table == s.table && s'.store == s.store && s'.nextRef == s.nextRef
      && s'.threads[t].calls == MustCall(operation, session.state)
  {
    hide Step, Inv, Enabled;
    RunKeeps(yaml, states, events, b);
    RunStep(yaml, states, events, b);
    assert IsWorking(states[b + 1], t);
    hide IsRun;
    Beginning(yaml, states[b], t, operation, id);
  }

  lemma Beginning(yaml: Yaml, s: State, t: ThreadId, operation: Operation, id: SessionId)
    requires Inv(yaml, s) && Enabled(s, Begin(t, operation, id)) && IsWorking(Step(yaml, s, Begin(t, operation, id)), t)
    ensures id in s.service.sessions
    ensures var s', session := Step(yaml, s, Begin(t, operation, id)), s.service.sessions[id];
      && s'.threads[t].session == session && session.id == id && s'.threads[t].operation == operation
      && s'.table == s.table && s'.store == s.store && s'.nextRef == s.nextRef
      && s'.threads[t].calls == MustCall(operation, session.state)
  {
    hide Claim, PhaseOf, Busy, PlaceOk, CallsDone, ResourcesOk, ThreadInv, LockInv, StoreInv;
    assert id in s.service.sessions && SessionOk(s, id);
    hide ServiceInv, Inv;
  }

  /** The runtime calls of each operation; a session that is found running is stopped before it is torn down. */
  function MustCall(operation: Operation, found: SessionState): seq<RuntimeCall> {
    match (operation, found)
    case (Start, _) => [PrepareCall, StartCall]
    case (Stop, _) => [StopCall]
    case (Restart, Running) => [StopCall, DestroyCall, PrepareCall, StartCall]
    case (Restart, _) => [DestroyCall, PrepareCall, StartCall]
    case (Remove, Running) => [StopCall, DestroyCall]
    case (Remove, _) => [DestroyCall]
  }

  /** The last own step of an operation that succeeds: no call was left to be made, and the runtime is left alone. */
  lemma LastStep(yaml: Yaml, states: seq<State>, events: seq<Event>, t: ThreadId, operation: Operation, id: SessionId, b: nat, e: nat)
    requires Finishes(yaml, states, events, t, operation, id, b, e)
    ensures IsWorking(states[e - 1], t) && states[e - 1].threads[t].at.Between? && states[e - 1].threads[t].calls == []
    ensures states[e].table == states[e - 1].table && states[e].store == states[e - 1].store
  {
    hide Step, Inv, Enabled;
    RunKeeps(yaml, states, events, e - 1);
    RunStep(yaml, states, events, e - 1);
    assert IsWorking(states[e - 1], t);
    hide IsRun;
    LastOwnStep(yaml, states[e - 1], events[e - 1], t);
  }

  lemma LastOwnStep(yaml: Yaml, s: State, event: Event, t: ThreadId)
    requires Inv(yaml, s) && Enabled(s, event) && IsWorking(s, t)
    requires t in Step(yaml, s, event).threads && Step(yaml, s, event).threads[t] == Done(Finished)
    ensures s.threads[t].at.Between? && s.threads[t].calls == []
    ensures Step(yaml, s, event).table == s.table && Step(yaml, s, event).store == s.store
  {
    if event.Advance? && event.thread == t {
      hide Inv, StepWorking, StartingMoves, StoppingMoves;
      OwnStepMoves(yaml, s, t, event.answer);
    } else {
      OthersKeepThread(yaml, s, event, t);
    }
  }

  /** A finished operation has come back from exactly its runtime calls, in their order. */
  lemma FinishedOperationMadeItsCalls(yaml: Yaml, states: seq<State>, events: seq<Event>, t: ThreadId, operation: Operation,
                                      id: SessionId, b: nat, e: nat)
    requires Finishes(yaml, states, events, t, operation, id, b, e)
    ensures id in states[b].service.sessions
    ensures CallsReturned(states, events, t, b + 1, e - 1) == MustCall(operation, states[b].service.sessions[id].state)
  {
    hide Step, Inv, Enabled;
    Begun(yaml, states, events, t, operation, id, b, e);
    LastStep(yaml, states, events, t, operation, id, b, e);
    CallsAreCounted(yaml, states, events, t, operation, id, b, e, e - 1);
    assert CallsReturned(states, events, t, b + 1, e - 1) + [] == CallsReturned(states, events, t, b + 1, e - 1);
  }

  // ----- what becomes of the session's resources -----

  /** The resources of a session, as the table gives them. */
  datatype Entry = Entry(ref: Ref, resources: Resources)

  function EntryOf(s: State, id: SessionId): Option<Entry> {
    if id in s.table && s.table[id] in s.store then Some(Entry(s.table[id], s.store[s.table[id]])) else None
  }

  /** What a session has, given what it had when objects below `bound` existed, and only prepares and starts since. */
  ghost predicate Continues(had: Option<Entry>, bound: Ref, s: State, id: SessionId) {
    match had
    case Some(entry) =>
      && id in s.table && s.table[id] == entry.ref && entry.ref in s.store
      && KeptOrBuilt(entry.resources, s.store[entry.ref])
    case None =>
      id in s.table ==>
        && s.table[id] >= bound && s.table[id] in s.store
        && s.store[s.table[id]].generation == if s.store[s.table[id]].execution.Some? then 1 else 0
  }

  ghost predicate OnlyStarts(calls: seq<RuntimeCall>) {
    forall k :: 0 <= k < |calls| ==> Starts(calls[k])
  }

  lemma StartingContinues(yaml: Yaml, s: State, event: Event, t: ThreadId, had: Option<Entry>, bound: Ref)
    requires Inv(yaml, s) && Enabled(s, event) && IsWorking(s, t) && OnlyStarts(s.threads[t].calls) && bound <= s.nextRef
    requires Continues(had, bound, s, s.threads[t].session.id)
    ensures var s' := Step(yaml, s, event);
      && Continues(had, bound, s', s.threads[t].session.id) && s.nextRef <= s'.nextRef
      && (IsWorking(s', t) ==> OnlyStarts(s'.threads[t].calls))
  {
    hide Inv, StepWorking, StepReading, StepBegin, StepBeginRead, Created;
    if event.Advance? && event.thread == t {
      OwnStepMoves(yaml, s, t, event.answer);
      MovesContinue(s, StepWorking(yaml, s, t, event.answer), t, had, bound);
    } else {
      OthersKeepEntry(yaml, s, event, t);
      hide Step;
    }
  }

  lemma MovesContinue(s: State, s': State, t: ThreadId, had: Option<Entry>, bound: Ref)
    requires IsWorking(s, t) && Moves(s, s', t) && OnlyStarts(s.threads[t].calls) && bound <= s.nextRef
    requires Continues(had, bound, s, s.threads[t].session.id)
    ensures Continues(had, bound, s', s.threads[t].session.id)
    ensures IsWorking(s', t) ==> OnlyStarts(s'.threads[t].calls)
  {
  }

  lemma {:induction false} StartsContinue(yaml: Yaml, states: seq<State>, events: seq<Event>, t: ThreadId, operation: Operation,
                                          id: SessionId, b: nat, e: nat, i: nat, j: nat)
    requires Spans(yaml, states, events, t, operation, id, b, e) && b < i <= j <= e && i < e
    requires OnlyStarts(states[i].threads[t].calls)
    requires (id in states[i].table ==> states[i].table[id] in states[i].store)
    ensures Continues(EntryOf(states[i], id), states[i].nextRef, states[j], id) && states[i].nextRef <= states[j].nextRef
    ensures j < e ==> OnlyStarts(states[j].threads[t].calls)
    decreases j
  {
    hide Step, Inv, Enabled;
    if i < j {
      StartsContinue(yaml, states, events, t, operation, id, b, e, i, j - 1);
      Begun(yaml, states, events, t, operation, id, b, e);
      CallsAreCounted(yaml, states, events, t, operation, id, b, e, j - 1);
      RunKeeps(yaml, states, events, j - 1);
      RunStep(yaml, states, events, j - 1);
      assert j < e ==> IsWorking(states[j], t);
      hide IsRun, Continues, OnlyStarts;
      StartingContinues(yaml, states[j - 1], events[j - 1], t, EntryOf(states[i], id), states[i].nextRef);
    }
  }

  /** What is executed: a session whose entry is there and whose scheduler runs. */
  predicate Executes(s: State, id: SessionId) {
    && id in s.table && s.table[id] in s.store
    && s.store[s.table[id]].execution.Some? && s.store[s.table[id]].execution.value.running
    && s.store[s.table[id]].phase.Running?
  }

  lemma FinishedIsLive(yaml: Yaml, states: seq<State>, events: seq<Event>, t: ThreadId, operation: Operation, id: SessionId, b: nat, e: nat)
    requires Finishes(yaml, states, events, t, operation, id, b, e)
    ensures operation.Start? || operation.Restart? ==> Executes(states[e], id)
    ensures operation.Stop? && id in states[e].table ==>
      states[e].table[id] in states[e].store && Vacant(states[e].store[states[e].table[id]])
    ensures operation.Remove? ==> id !in states[e].table
  {
    hide Step, IsRun, Enabled;
    Begun(yaml, states, events, t, operation, id, b, e);
    LastStep(yaml, states, events, t, operation, id, b, e);
    CallsAreCounted(yaml, states, events, t, operation, id, b, e, e - 1);
    hide Inv;
    RunKeeps(yaml, states, events, e - 1);
    NothingLeftToCall(yaml, states[e - 1], t);
  }

  lemma NothingLeftToCall(yaml: Yaml, s: State, t: ThreadId)
    requires Inv(yaml, s) && IsWorking(s, t) && s.threads[t].calls == [] && s.threads[t].at.Between?
    ensures CallsDone(s, s.threads[t].operation, s.threads[t].session.id)
  {
    hide ServiceInv, StoreInv, LockInv, PlaceOk;
    assert ThreadOk(yaml, s, s.threads[t]);
  }

  /**
   * A finished start leaves the session running. An execution that was there at the beginning is the
   * one that runs now, with its graph, its bindings and its generation; otherwise a new one has been
   * built, in the resources that were there or, if there were none, in new ones.
   */
  lemma FinishedStart(yaml: Yaml, states: seq<State>, events: seq<Event>, t: ThreadId, id: SessionId, b: nat, e: nat)
    requires Finishes(yaml, states, events, t, Start, id, b, e)
    ensures var before, after := states[b], states[e];
      && Executes(after, id)
      && (id in before.table ==>
            && after.table[id] == before.table[id] && before.table[id] in before.store
            && var had, has := before.store[before.table[id]], after.store[after.table[id]];
            && (had.execution.Some? ==>
                  && has.execution.value.graph == had.execution.value.graph && has.bindings == had.bindings
                  && has.generation == had.generation)
            && (had.execution.None? ==> has.generation == had.generation + 1))
      && (id !in before.table ==> after.table[id] !in before.store && after.store[after.table[id]].generation == 1)
  {
    hide Step, IsRun, Enabled, Inv;
    Begun(yaml, states, events, t, Start, id, b, e);
    RunKeeps(yaml, states, events, b);
    EntriesAreOld(yaml, states[b], id);
    StartsContinue(yaml, states, events, t, Start, id, b, e, b + 1, e);
    FinishedIsLive(yaml, states, events, t, Start, id, b, e);
  }

  /** Stops, then one destroy, then nothing but prepares and starts. */
  ghost predicate TearsDown(calls: seq<RuntimeCall>) {
    && calls != []
    && ((calls[0].StopCall? && TearsDown(calls[1..])) || (calls[0].DestroyCall? && OnlyStarts(calls[1..])))
  }

  lemma TearingStep(yaml: Yaml, s: State, event: Event, t: ThreadId)
    requires Inv(yaml, s) && Enabled(s, event) && IsWorking(s, t) && TearsDown(s.threads[t].calls)
    requires IsWorking(Step(yaml, s, event), t)
    ensures var s' := Step(yaml, s, event);
      TearsDown(s'.threads[t].calls) || (OnlyStarts(s'.threads[t].calls) && s.threads[t].session.id !in s'.table)
  {
    hide Inv, StepWorking, StepReading, StepBegin, StepBeginRead, Created, StartingMoves, StoppingMoves, OnlyStarts;
    if event.Advance? && event.thread == t {
      OwnStepMoves(yaml, s, t, event.answer);
    } else {
      OthersKeepThread(yaml, s, event, t);
    }
  }

  /** An operation that tears down before it starts anything passes a state in which the session has no entry. */
  lemma {:induction false} EntryIsErased(yaml: Yaml, states: seq<State>, events: seq<Event>, t: ThreadId, operation: Operation,
                                         id: SessionId, b: nat, e: nat, j: nat) returns (k: nat)
    requires Spans(yaml, states, events, t, operation, id, b, e) && b < j < e && TearsDown(states[b + 1].threads[t].calls)
    ensures TearsDown(states[j].threads[t].calls)
         || (b < k <= j && id !in states[k].table && OnlyStarts(states[k].threads[t].calls))
    decreases j
  {
    hide Step, Inv, Enabled, TearsDown, OnlyStarts;
    if j == b + 1 {
      k := j;
    } else {
      k := EntryIsErased(yaml, states, events, t, operation, id, b, e, j - 1);
      if TearsDown(states[j - 1].threads[t].calls) {
        k := j;
        Begun(yaml, states, events, t, operation, id, b, e);
        CallsAreCounted(yaml, states, events, t, operation, id, b, e, j - 1);
        RunKeeps(yaml, states, events, j - 1);
        RunStep(yaml, states, events, j - 1);
        assert IsWorking(states[j], t);
        hide IsRun;
        TearingStep(yaml, states[j - 1], events[j - 1], t);
      }
    }
  }

  lemma RestartTearsDown(state: SessionState)
    ensures TearsDown(MustCall(Restart, state))
  {
    assert MustCall(Restart, state)[1..] == if state.Running? then [DestroyCall, PrepareCall, StartCall] else [PrepareCall, StartCall];
  }

  /**
   * A finished restart leaves the session running on an execution of its own making: on the way its
   * entry was gone and everything that belonged to it vacant, and only then were new resources made,
   * of which this execution is the first.
   */
  lemma FinishedRestart(yaml: Yaml, states: seq<State>, events: seq<Event>, t: ThreadId, id: SessionId, b: nat, e: nat)
    returns (k: nat)
    requires Finishes(yaml, states, events, t, Restart, id, b, e)
    ensures b < k < e && id !in states[k].table
    ensures forall ref :: ref in states[k].store && states[k].store[ref].sessionId == id ==> Vacant(states[k].store[ref])
    ensures var after := states[e];
      && Executes(after, id)
      && after.table[id] !in states[b].store && after.table[id] !in states[k].store
      && after.store[after.table[id]].generation == 1
  {
    hide Step, Inv, Enabled, TearsDown, OnlyStarts;
    Begun(yaml, states, events, t, Restart, id, b, e);
    LastStep(yaml, states, events, t, Restart, id, b, e);
    RestartTearsDown(states[b].service.sessions[id].state);
    k := EntryIsErased(yaml, states, events, t, Restart, id, b, e, e - 1);
    NothingTearsNothing();
    RunKeeps(yaml, states, events, b);
    RunKeeps(yaml, states, events, k);
    EntriesAreOld(yaml, states[b], id);
    EntriesAreOld(yaml, states[k], id);
    RefsGrow(yaml, states, events, b, k);
    StartsContinue(yaml, states, events, t, Restart, id, b, e, k, e);
    FinishedIsLive(yaml, states, events, t, Restart, id, b, e);
    hide IsRun;
    forall ref | ref in states[k].store && states[k].store[ref].sessionId == id ensures Vacant(states[k].store[ref]) {
      NoEntryNothingHeld(yaml, states[k], ref);
    }
  }

  lemma NothingTearsNothing()
    ensures !TearsDown([])
  {
  }

  lemma NoEntryNothingHeld(yaml: Yaml, s: State, ref: Ref)
    requires Inv(yaml, s) && ref in s.store && s.store[ref].sessionId !in s.table
    ensures Vacant(s.store[ref])
  {
    hide ServiceInv, ThreadInv, LockInv, Vacant;
    assert ResourcesOk(yaml, s, ref);
  }

  lemma {:induction false} RefsGrow(yaml: Yaml, states: seq<State>, events: seq<Event>, i: nat, j: nat)
    requires IsRun(yaml, states, events) && i <= j < |states|
    ensures states[i].nextRef <= states[j].nextRef
    decreases j
  {
    hide Step, Inv, Enabled;
    if i < j {
      RefsGrow(yaml, states, events, i, j - 1);
      RunKeeps(yaml, states, events, j - 1);
      RunStep(yaml, states, events, j - 1);
      hide IsRun;
      RefsGrowAtStep(yaml, states[j - 1], events[j - 1]);
    }
  }

  lemma RefsGrowAtStep(yaml: Yaml, s: State, event: Event)
    requires Inv(yaml, s) && Enabled(s, event)
    ensures s.nextRef <= Step(yaml, s, event).nextRef
  {
    hide Inv, StepWorking, Answered, Open, Claim, Created, StartingMoves, StoppingMoves;
    if event.Advance? && IsWorking(s, event.thread) { OwnStepMoves(yaml, s, event.thread, event.answer); }
  }

  /** The entry is what it was: the same resources, if any, with as many executions built. */
  ghost predicate Stays(had: Option<Entry>, s: State, id: SessionId) {
    match had
    case None => id !in s.table
    case Some(entry) =>
      id in s.table && s.table[id] == entry.ref && entry.ref in s.store && s.store[entry.ref].generation == entry.resources.generation
  }

  ghost predicate OnlyStops(calls: seq<RuntimeCall>) {
    forall k :: 0 <= k < |calls| ==> calls[k].StopCall?
  }

  lemma StoppingStays(yaml: Yaml, s: State, event: Event, t: ThreadId, had: Option<Entry>)
    requires Inv(yaml, s) && Enabled(s, event) && IsWorking(s, t) && OnlyStops(s.threads[t].calls)
    requires Stays(had, s, s.threads[t].session.id)
    ensures var s' := Step(yaml, s, event);
      Stays(had, s', s.threads[t].session.id) && (IsWorking(s', t) ==> OnlyStops(s'.threads[t].calls))
  {
    hide Inv, StepWorking, StepReading, StepBegin, StepBeginRead, Created;
    if event.Advance? && event.thread == t {
      OwnStepMoves(yaml, s, t, event.answer);
    } else {
      OthersKeepEntry(yaml, s, event, t);
    }
  }

  lemma {:induction false} StopsStay(yaml: Yaml, states: seq<State>, events: seq<Event>, t: ThreadId, operation: Operation,
                                     id: SessionId, b: nat, e: nat, j: nat)
    requires Spans(yaml, states, events, t, operation, id, b, e) && b < j <= e && OnlyStops(states[b + 1].threads[t].calls)
    ensures Stays(EntryOf(states[b + 1], id), states[j], id)
    ensures j < e ==> OnlyStops(states[j].threads[t].calls)
    decreases j
  {
    hide Step, Inv, Enabled;
    Begun(yaml, states, events, t, operation, id, b, e);
    if j == b + 1 {
      RunKeeps(yaml, states, events, b);
      EntriesAreOld(yaml, states[b], id);
    } else {
      StopsStay(yaml, states, events, t, operation, id, b, e, j - 1);
      CallsAreCounted(yaml, states, events, t, operation, id, b, e, j - 1);
      RunKeeps(yaml, states, events, j - 1);
      RunStep(yaml, states, events, j - 1);
      assert j < e ==> IsWorking(states[j], t);
      hide IsRun, Stays, OnlyStops;
      StoppingStays(yaml, states[j - 1], events[j - 1], t, EntryOf(states[b + 1], id));
    }
  }

  /** A finished stop leaves the session's resources where they were, with nothing running and nothing held. */
  lemma FinishedStop(yaml: Yaml, states: seq<State>, events: seq<Event>, t: ThreadId, id: SessionId, b: nat, e: nat)
    requires Finishes(yaml, states, events, t, Stop, id, b, e)
    ensures var before, after := states[b], states[e];
      && (id in after.table <==> id in before.table)
      && (id in before.table ==>
            && after.table[id] == before.table[id] && before.table[id] in before.store && before.table[id] in after.store
            && Vacant(after.store[after.table[id]])
            && after.store[after.table[id]].generation == before.store[before.table[id]].generation)
  {
    hide Step, Inv, Enabled, IsRun, Vacant;
    Begun(yaml, states, events, t, Stop, id, b, e);
    RunKeeps(yaml, states, events, b);
    EntriesAreOld(yaml, states[b], id);
    StopsStay(yaml, states, events, t, Stop, id, b, e, e);
    FinishedIsLive(yaml, states, events, t, Stop, id, b, e);
  }

  /** A finished remove leaves nothing: no record, no phase, no entry, and no resources of the session that hold anything. */
  lemma FinishedRemove(yaml: Yaml, states: seq<State>, events: seq<Event>, t: ThreadId, id: SessionId, b: nat, e: nat)
    requires Finishes(yaml, states, events, t, Remove, id, b, e)
    ensures var after := states[e];
      && id !in after.service.sessions && id !in after.service.phases && id !in after.table
      && forall ref :: ref in after.store && after.store[ref].sessionId == id ==> Vacant(after.store[ref])
  {
    hide Step, Inv, Enabled, Vacant;
    RunKeeps(yaml, states, events, e);
    FinishedIsLive(yaml, states, events, t, Remove, id, b, e);
    SessionIsDropped(yaml, states, events, t, id, b, e);
    hide IsRun;
    forall ref | ref in states[e].store && states[e].store[ref].sessionId == id ensures Vacant(states[e].store[ref]) {
      NoEntryNothingHeld(yaml, states[e], ref);
    }
  }

  lemma SessionIsDropped(yaml: Yaml, states: seq<State>, events: seq<Event>, t: ThreadId, id: SessionId, b: nat, e: nat)
    requires Finishes(yaml, states, events, t, Remove, id, b, e)
    ensures id !in states[e].service.sessions && id !in states[e].service.phases
  {
    hide Step, Inv, Enabled;
    Begun(yaml, states, events, t, Remove, id, b, e);
    LastStep(yaml, states, events, t, Remove, id, b, e);
    CallsAreCounted(yaml, states, events, t, Remove, id, b, e, e - 1);
    RunKeeps(yaml, states, events, e - 1);
    RunStep(yaml, states, events, e - 1);
    hide IsRun;
    LastOwnEvent(yaml, states[e - 1], events[e - 1], t);
  }

  lemma LastOwnEvent(yaml: Yaml, s: State, event: Event, t: ThreadId)
    requires Inv(yaml, s) && Enabled(s, event) && IsWorking(s, t) && s.threads[t].at.Between? && s.threads[t].calls == []
    requires s.threads[t].operation.Remove? && t in Step(yaml, s, event).threads && Step(yaml, s, event).threads[t] == Done(Finished)
    ensures var s', id := Step(yaml, s, event), s.threads[t].session.id;
      id !in s'.service.sessions && id !in s'.service.phases
  {
    if !(event.Advance? && event.thread == t) { OthersKeepThread(yaml, s, event, t); }
    hide Inv, Answered, Open, Claim, Created;
  }

  // ----- what a runtime call has done when it returns -----

  /** How a session's resources are found right after a runtime call for it has returned. */
  ghost predicate CallHasDone(s: State, call: RuntimeCall, id: SessionId) {
    match call
    case PrepareCall => id in s.table && s.table[id] in s.store && s.store[s.table[id]].execution.Some?
    case StartCall => Executes(s, id)
    case StopCall => id in s.table ==> s.table[id] in s.store && Vacant(s.store[s.table[id]])
    case DestroyCall => id !in s.table
  }

  lemma ReturningCall(yaml: Yaml, s: State, t: ThreadId, answer: Answer)
    requires Inv(yaml, s) && Enabled(s, Advance(t, answer)) && IsWorking(s, t)
    ensures var s' := StepWorking(yaml, s, t, answer);
      IsWorking(s', t) && |s'.threads[t].calls| < |s.threads[t].calls| ==>
        CallHasDone(s', s.threads[t].calls[0], s.threads[t].session.id)
  {
    var at := s.threads[t].at;
    if InCall(at) {
      WhileInside(yaml, s, t);
      hide Inv, Inside, CallHasDone;
      if at.Prepared? || at.SchedulerStarting? || at.Torndown? || at.Erasing? {
        ReturningPlace(yaml, s, t, answer);
      } else {
        OnTheWay(yaml, s, t, answer);
      }
    } else {
      hide Inv, Conclude, RecordFailure, FailureMessage, Vacant;
    }
  }

  /** The places from which a call can return. */
  lemma ReturningPlace(yaml: Yaml, s: State, t: ThreadId, answer: Answer)
    requires IsWorking(s, t) && InCall(s.threads[t].at) && Inside(yaml, s, t, s.threads[t].at.ref) && Enabled(s, Advance(t, answer))
    requires var at := s.threads[t].at; at.Prepared? || at.SchedulerStarting? || at.Torndown? || at.Erasing?
    ensures var s' := StepWorking(yaml, s, t, answer);
      IsWorking(s', t) && |s'.threads[t].calls| < |s.threads[t].calls| ==>
        CallHasDone(s', s.threads[t].calls[0], s.threads[t].session.id)
  {
    hide Settled, ContractErrorOf, LoadedGraph, PlannedStreams, PortsOf, FirstFree, BindStream, AsAllocated, PlansOf, Serves;
    hide StepBetween, StepFetched, StepEntered, StepAtOnce, StepInOnce, StepReleasing, StepAllocating, StepLoading, StepUndoing,
         StepSchedulerStopping, StepRaised;
  }

  /** From these places no call returns. */
  lemma OnTheWay(yaml: Yaml, s: State, t: ThreadId, answer: Answer)
    requires Enabled(s, Advance(t, answer)) && IsWorking(s, t) && InCall(s.threads[t].at)
    requires var at := s.threads[t].at; !at.Prepared? && !at.SchedulerStarting? && !at.Torndown? && !at.Erasing?
    ensures var s' := StepWorking(yaml, s, t, answer);
      t in s'.threads && s'.threads[t].Working? && s'.threads[t].calls == s.threads[t].calls
  {
    hide StepBetween, StepPrepared, StepSchedulerStarting, StepTorndown, StepErasing, StepRaised,
         ContractErrorOf, LoadedGraph, PlannedStreams, PortsOf, FirstFree, BindStream;
    var at := s.threads[t].at;
    if at.Releasing? || at.Allocating? || at.Undoing? {
      hide StepFetched, StepEntered, StepAtOnce, StepInOnce, StepLoading, StepSchedulerStopping;
    } else {
      hide StepReleasing, StepAllocating, StepUndoing;
    }
  }

  /** Every runtime call that returns has done what its name says, whatever other threads do. */
  lemma ReturnedCallHasDone(yaml: Yaml, states: seq<State>, events: seq<Event>, i: nat, t: ThreadId)
    requires IsRun(yaml, states, events) && i < |events|
    requires CallReturned(states[i], events[i], states[i + 1], t) != []
    ensures CallHasDone(states[i + 1], CallReturned(states[i], events[i], states[i + 1], t)[0], states[i].threads[t].session.id)
  {
    hide Step, Inv, CallHasDone;
    RunKeeps(yaml, states, events, i);
    RunStep(yaml, states, events, i);
    hide IsRun;
    ReturningStep(yaml, states[i], events[i], t);
  }

  lemma ReturningStep(yaml: Yaml, s: State, event: Event, t: ThreadId)
    requires Inv(yaml, s) && Enabled(s, event) && CallReturned(s, event, Step(yaml, s, event), t) != []
    ensures CallHasDone(Step(yaml, s, event), CallReturned(s, event, Step(yaml, s, event), t)[0], s.threads[t].session.id)
  {
    hide Inv, CallHasDone, StepWorking;
    ReturningCall(yaml, s, t, event.answer);
  }

  // ----- what a beginning operation is told -----

  /**
   * An operation on an unknown session is refused; so is one on a session that another operation is
   * working on, and a start of a session that runs. A stop of a stopped session has nothing to do.
   * In every other case the thread starts to work on the session, whose phase says so.
   */
  lemma BeginIsDecided(yaml: Yaml, states: seq<State>, events: seq<Event>, i: nat, t: ThreadId, operation: Operation, id: SessionId)
    requires IsRun(yaml, states, events) && i < |events| && events[i] == Begin(t, operation, id)
    ensures var s, s' := states[i], states[i + 1];
      if id !in s.service.sessions then s' == s.(threads := s.threads[t := Done(Failure(NotFound))])
      else if (exists u :: Operates(s, u, id)) || (operation.Start? && s.service.sessions[id].state.Running?) then
        s' == s.(threads := s.threads[t := Done(Failure(InvalidState))])
      else if operation.Stop? && s.service.sessions[id].state.Stopped? then s' == s.(threads := s.threads[t := Done(Unchanged)])
      else
        && IsWorking(s', t) && s'.threads[t].session == s.service.sessions[id] && s'.threads[t].operation == operation
        && s'.threads[t].at.Between?
        && s' == s.(threads := s.threads[t := s'.threads[t]],
                    service := s.service.(phases := s.service.phases[id :=
                      if operation.Start? || operation.Restart? then LifecyclePhase.Starting else LifecyclePhase.Stopping]))
  {
    hide Step, Inv;
    RunStep(yaml, states, events, i);
    ServiceStateIsConsistent(yaml, states, events, i, id);
    hide IsRun;
    OpeningIsDecided(yaml, states[i], t, operation, id);
  }

  lemma OpeningIsDecided(yaml: Yaml, s: State, t: ThreadId, operation: Operation, id: SessionId)
    requires Enabled(s, Begin(t, operation, id))
    requires id in s.service.sessions ==>
      && s.service.sessions[id].id == id && id in s.service.phases
      && (!Busy(s.service.phases[id]) ==> PhaseOfState(s.service.sessions[id].state) == s.service.phases[id])
    ensures var s' := Step(yaml, s, Begin(t, operation, id));
      if id !in s.service.sessions then s' == s.(threads := s.threads[t := Done(Failure(NotFound))])
      else if Busy(s.service.phases[id]) || (operation.Start? && s.service.sessions[id].state.Running?) then
        s' == s.(threads := s.threads[t := Done(Failure(InvalidState))])
      else if operation.Stop? && s.service.sessions[id].state.Stopped? then s' == s.(threads := s.threads[t := Done(Unchanged)])
      else
        && IsWorking(s', t) && s'.threads[t].session == s.service.sessions[id] && s'.threads[t].operation == operation
        && s'.threads[t].at.Between?
        && s' == s.(threads := s.threads[t := s'.threads[t]],
                    service := s.service.(phases := s.service.phases[id :=
                      if operation.Start? || operation.Restart? then LifecyclePhase.Starting else LifecyclePhase.Stopping]))
  {
    hide Program;
  }
}
