/** How many steps an operation can take, whatever other threads do and whatever the environment answers. */
module LifecycleProgress {
  import opened Pmt
  import opened Sessions
  import opened SessionStreams
  import opened StreamBindings
  import opened SessionServices
  import opened FlowGraphs
  import opened Lifecycle
  import opened LifecycleInvariant

  // ----- a bound on the steps of an operation -----

  /** Own steps left in the current runtime call, at most; `n` is the number of planned streams. */
  function CallBudget(n: nat, at: Position, resources: Resources): nat {
    var unreleased := if resources.released <= |resources.bindings| then |resources.bindings| - resources.released else 0;
    match at
    case Between => 0
    case Raised => 0
    case Fetched(_) => 2 * n + 9
    case Entered(_) => 2 * n + 8
    case AtOnce(_) => 2 * n + 7
    case InOnce(_) => 2 * n + 6
    case Releasing(_, next) =>
      (match next
       case ThenAllocate => 2 * n + 5 + unreleased
       case ThenIdle => 4 + unreleased
       case ThenDropExecution => 4 + unreleased
       case ThenErase => 2 + unreleased)
    case Allocating(_, _, todo) => |todo| + n + 4
    case Loading(_, _) => n + 3
    case Undoing(_, built) => |built| + 1
    case Prepared(_) => 2
    case SchedulerStarting(_) => 1
    case SchedulerStopping(_) => n + 5
    case Torndown(_) => 3
    case Erasing(_) => 1
  }

  /** Own steps of that many whole runtime calls, at most. */
  function CallsBudget(calls: nat, n: nat): nat {
    if calls == 0 then 0 else 2 * n + 11 + CallsBudget(calls - 1, n)
  }

  /** Own steps left in a lifecycle operation, at most, whatever other threads do in between. */
  function Budget(yaml: Yaml, s: State, t: ThreadId): nat
    requires IsWorking(s, t)
  {
    var th := s.threads[t];
    var n := |PlannedStreams(yaml, th.session)|;
    if th.at.Raised? then 1
    else if th.at.Between? || th.calls == [] || th.at.ref !in s.store then CallsBudget(|th.calls|, n) + 1
    else CallsBudget(|th.calls| - 1, n) + 1 + CallBudget(n, th.at, s.store[th.at.ref])
  }

  predicate InCall(at: Position) {
    !at.Between? && !at.Raised?
  }

  /** The ways a step inside a runtime call moves on: to an exception, to the next call, or further along the body. */
  ghost predicate MovesOn(n: nat, s: State, s': State, t: ThreadId) {
    && IsWorking(s, t) && IsWorking(s', t) && s'.threads[t].session == s.threads[t].session
    && var th, th' := s.threads[t], s'.threads[t];
    && InCall(th.at) && th.at.ref in s.store && th.calls != []
    && (|| th'.at.Raised?
        || (th'.at.Between? && th'.calls == th.calls[1..])
        || (&& InCall(th'.at) && th'.calls == th.calls && th'.at.ref in s'.store
            && CallBudget(n, th'.at, s'.store[th'.at.ref]) < CallBudget(n, th.at, s.store[th.at.ref])))
  }

  lemma MovingOnSpends(yaml: Yaml, s: State, s': State, t: ThreadId)
    requires IsWorking(s, t) && MovesOn(|PlannedStreams(yaml, s.threads[t].session)|, s, s', t)
    ensures Budget(yaml, s', t) < Budget(yaml, s, t)
  {
    var th := s.threads[t];
    var n := |PlannedStreams(yaml, th.session)|;
    hide PlannedStreams, CallBudget;
    CallBudgetIsPositive(n, th.at, s.store[th.at.ref]);
    assert |th.calls[1..]| == |th.calls| - 1;
  }

  lemma CallBudgetIsPositive(n: nat, at: Position, resources: Resources)
    requires InCall(at)
    ensures CallBudget(n, at, resources) > 0
  {
  }

  /** The length of a serving binding list is the length of the plan. */
  lemma ServingLength(yaml: Yaml, session: Session, resources: Resources)
    requires Serves(yaml, session, resources) && resources.execution.Some?
    ensures |resources.bindings| == |PlannedStreams(yaml, session)|
  {
    hide LoadedGraph, PlannedStreams;
    assert |PlansOf(resources.bindings)| == |resources.bindings|;
  }

  lemma FetchingMovesOn(yaml: Yaml, s: State, t: ThreadId, ref: Ref, answer: Answer)
    requires Inside(yaml, s, t, ref) && s.threads[t].at.Fetched? && WellPlaced(s, s.threads[t])
    ensures MovesOn(|PlannedStreams(yaml, s.threads[t].session)|, s, StepWorking(yaml, s, t, answer), t)
  {
    hide ContractErrorOf, LoadedGraph, PlannedStreams, PortsOf, PlansOf, AsAllocated, StepBetween, StepAtOnce,
         StepInOnce, StepReleasing, StepAllocating, StepLoading, StepUndoing, StepPrepared, StepSchedulerStarting,
         StepSchedulerStopping, StepTorndown, StepErasing, StepRaised, StepEntered, Serves, Settled;
  }

  lemma EnteringMovesOn(yaml: Yaml, s: State, t: ThreadId, ref: Ref, answer: Answer)
    requires Inside(yaml, s, t, ref) && s.threads[t].at.Entered? && WellPlaced(s, s.threads[t])
    ensures MovesOn(|PlannedStreams(yaml, s.threads[t].session)|, s, StepWorking(yaml, s, t, answer), t)
  {
    hide ContractErrorOf, LoadedGraph, PlannedStreams, PortsOf, PlansOf, AsAllocated, StepBetween, StepAtOnce,
         StepInOnce, StepReleasing, StepAllocating, StepLoading, StepUndoing, StepPrepared, StepSchedulerStarting,
         StepSchedulerStopping, StepTorndown, StepErasing, StepRaised, StepFetched;
    if s.store[ref].execution.Some? {
      ServingLength(yaml, s.threads[t].session, s.store[ref]);
    }
  }

  lemma BootstrapMovesOn(yaml: Yaml, s: State, t: ThreadId, ref: Ref, answer: Answer)
    requires Inside(yaml, s, t, ref) && (s.threads[t].at.AtOnce? || s.threads[t].at.InOnce?)
    requires WellPlaced(s, s.threads[t]) && !Blocked(s, s.threads[t])
    ensures MovesOn(|PlannedStreams(yaml, s.threads[t].session)|, s, StepWorking(yaml, s, t, answer), t)
  {
    hide ContractErrorOf, LoadedGraph, PlannedStreams, PortsOf, PlansOf, AsAllocated, Settled, StepBetween,
         StepFetched, StepEntered, StepReleasing, StepAllocating, StepLoading, StepUndoing, StepPrepared,
         StepSchedulerStarting, StepSchedulerStopping, StepTorndown, StepErasing, StepRaised;
  }

  lemma StoppingMovesOn(yaml: Yaml, s: State, t: ThreadId, ref: Ref, answer: Answer)
    requires Inside(yaml, s, t, ref)
    requires s.threads[t].at.SchedulerStopping? || s.threads[t].at.Torndown? || s.threads[t].at.Erasing?
    requires WellPlaced(s, s.threads[t])
    ensures MovesOn(|PlannedStreams(yaml, s.threads[t].session)|, s, StepWorking(yaml, s, t, answer), t)
  {
    hide LoadedGraph, PlannedStreams, PortsOf, PlansOf, ContractErrorOf, AsAllocated, StepBetween, StepFetched,
         StepEntered, StepAtOnce, StepInOnce, StepReleasing, StepAllocating, StepLoading, StepUndoing,
         StepPrepared, StepSchedulerStarting, StepRaised;
    if s.threads[t].at.SchedulerStopping? {
      ServingLength(yaml, s.threads[t].session, s.store[ref]);
    }
  }

  lemma ReleasingMovesOn(yaml: Yaml, s: State, t: ThreadId, ref: Ref, answer: Answer)
    requires Inside(yaml, s, t, ref) && s.threads[t].at.Releasing?
    requires WellPlaced(s, s.threads[t])
    ensures MovesOn(|PlannedStreams(yaml, s.threads[t].session)|, s, StepWorking(yaml, s, t, answer), t)
  {
    hide LoadedGraph, PlannedStreams, PortsOf, PlansOf, ContractErrorOf, AsAllocated, Serves, StepBetween,
         StepFetched, StepEntered, StepAtOnce, StepInOnce, StepAllocating, StepLoading, StepUndoing, StepPrepared,
         StepSchedulerStarting, StepSchedulerStopping, StepTorndown, StepErasing, StepRaised;
  }

  lemma AllocatingMovesOn(yaml: Yaml, s: State, t: ThreadId, ref: Ref, answer: Answer)
    requires Inside(yaml, s, t, ref)
    requires s.threads[t].at.Allocating? || s.threads[t].at.Loading? || s.threads[t].at.Undoing?
    requires WellPlaced(s, s.threads[t])
    ensures MovesOn(|PlannedStreams(yaml, s.threads[t].session)|, s, StepWorking(yaml, s, t, answer), t)
  {
    hide LoadedGraph, PlannedStreams, PortsOf, FirstFree, BindStream, Serves, ContractErrorOf, AsAllocated,
         StepBetween, StepFetched, StepEntered, StepAtOnce, StepInOnce, StepReleasing, StepPrepared,
         StepSchedulerStarting, StepSchedulerStopping, StepTorndown, StepErasing, StepRaised;
    var at := s.threads[t].at;
    assert at.Loading? ==> |PlansOf(at.built)| == |at.built|;
  }

  lemma StartingMovesOn(yaml: Yaml, s: State, t: ThreadId, ref: Ref, answer: Answer)
    requires Inside(yaml, s, t, ref) && (s.threads[t].at.Prepared? || s.threads[t].at.SchedulerStarting?)
    requires WellPlaced(s, s.threads[t])
    ensures MovesOn(|PlannedStreams(yaml, s.threads[t].session)|, s, StepWorking(yaml, s, t, answer), t)
  {
    hide LoadedGraph, PlannedStreams, PortsOf, PlansOf, ContractErrorOf, AsAllocated, StepBetween, StepFetched,
         StepEntered, StepAtOnce, StepInOnce, StepReleasing, StepAllocating, StepLoading, StepUndoing,
         StepSchedulerStopping, StepTorndown, StepErasing, StepRaised;
  }

  lemma BetweenSpends(yaml: Yaml, s: State, t: ThreadId)
    requires Inv(yaml, s) && IsWorking(s, t) && s.threads[t].at.Between?
    ensures IsWorking(StepBetween(s, t), t) ==> Budget(yaml, StepBetween(s, t), t) < Budget(yaml, s, t)
  {
    hide PlannedStreams, Conclude, ServiceInv, ThreadInv, LockInv, ResourcesOk;
    var th := s.threads[t];
    assert th.calls != [] ==> |th.calls[1..]| == |th.calls| - 1;
  }

  /** Each own step of an operation uses up some of its budget, whatever the environment answers. */
  lemma OwnStepSpendsBudget(yaml: Yaml, s: State, t: ThreadId, answer: Answer)
    requires Inv(yaml, s) && Enabled(s, Advance(t, answer)) && IsWorking(s, t)
    ensures var s' := Step(yaml, s, Advance(t, answer));
      IsWorking(s', t) ==> Budget(yaml, s', t) < Budget(yaml, s, t)
  {
    hide Inv, Inside, MovesOn, Budget, StepBetween, StepFetched, StepEntered, StepAtOnce, StepInOnce, StepReleasing, StepAllocating, StepLoading,
         StepUndoing, StepPrepared, StepSchedulerStarting, StepSchedulerStopping, StepTorndown, StepErasing;
    var s' := Step(yaml, s, Advance(t, answer));
    var at := s.threads[t].at;
    if at.Between? {
      BetweenSpends(yaml, s, t);
    } else if !at.Raised? {
      WhileInside(yaml, s, t);
      if at.Fetched? { FetchingMovesOn(yaml, s, t, at.ref, answer); }
      else if at.Entered? { EnteringMovesOn(yaml, s, t, at.ref, answer); }
      else if at.AtOnce? || at.InOnce? { BootstrapMovesOn(yaml, s, t, at.ref, answer); }
      else if at.Releasing? { ReleasingMovesOn(yaml, s, t, at.ref, answer); }
      else if at.Allocating? || at.Loading? || at.Undoing? { AllocatingMovesOn(yaml, s, t, at.ref, answer); }
      else if at.Prepared? || at.SchedulerStarting? { StartingMovesOn(yaml, s, t, at.ref, answer); }
      else { StoppingMovesOn(yaml, s, t, at.ref, answer); }
      MovingOnSpends(yaml, s, s', t);
    }
  }

  // ----- other threads do not lengthen an operation -----

  /** A step moves no thread but its own, and changes no resources but those its thread points to. */
  ghost predicate Confined(s: State, s': State, t: ThreadId) {
    && (forall u :: u in s.threads && u != t ==> u in s'.threads && s'.threads[u] == s.threads[u])
    && (forall ref :: ref in s.store && !(IsWorking(s, t) && InCall(s.threads[t].at) && s.threads[t].at.ref == ref) ==>
          ref in s'.store && s'.store[ref] == s.store[ref])
  }

  lemma GoodStepIsConfined(yaml: Yaml, s: State, s': State, t: ThreadId)
    requires IsWorking(s, t) && InCall(s.threads[t].at) && GoodStep(yaml, s, s', t, s.threads[t].at.ref)
    ensures Confined(s, s', t)
  {
    hide WorkingOk, Settled, Vacant, MidBody, Holds;
  }

  lemma OutsideIsConfined(yaml: Yaml, s: State, t: ThreadId)
    requires Inv(yaml, s) && IsWorking(s, t)
    requires s.threads[t].at.Erasing? ==> s.threads[t].calls != []
    ensures s.threads[t].at.Between? ==> Confined(s, StepBetween(s, t), t)
    ensures s.threads[t].at.Erasing? ==> Confined(s, StepErasing(s, t, s.threads[t].at.ref), t)
    ensures s.threads[t].at.Raised? ==> Confined(s, StepRaised(s, t), t)
  {
    hide ServiceInv, ThreadInv, LockInv, ResourcesOk, Conclude, RecordFailure, FailureMessage;
    assert forall ref :: ref in s.store ==> ref < s.nextRef;
  }

  lemma WorkingIsConfined(yaml: Yaml, s: State, t: ThreadId, answer: Answer)
    requires Inv(yaml, s) && Enabled(s, Advance(t, answer)) && s.threads[t].Working?
    ensures Confined(s, StepWorking(yaml, s, t, answer), t)
  {
    hide Inv, Confined, GoodStep, StepBetween, StepFetched, StepEntered, StepAtOnce, StepInOnce, StepReleasing, StepAllocating, StepLoading,
         StepUndoing, StepPrepared, StepSchedulerStarting, StepSchedulerStopping, StepTorndown, StepErasing, StepRaised;
    var at := s.threads[t].at;
    if InCall(at) && !at.Erasing? {
      InsideIsGood(yaml, s, t, answer);
      GoodStepIsConfined(yaml, s, StepWorking(yaml, s, t, answer), t);
    } else {
      OutsideIsConfined(yaml, s, t);
    }
  }

  /** Two threads inside runtime calls point to different resources, since they work on different sessions. */
  lemma DifferentResources(yaml: Yaml, s: State, t: ThreadId, u: ThreadId)
    requires Inv(yaml, s) && IsWorking(s, t) && IsWorking(s, u) && t != u
    requires InCall(s.threads[t].at) && InCall(s.threads[u].at)
    ensures s.threads[t].at.ref != s.threads[u].at.ref && s.threads[t].at.ref in s.store
  {
    hide ServiceInv, LockInv, ResourcesOk, PlaceOk, CallsDone;
    assert ThreadOk(yaml, s, s.threads[t]) && ThreadOk(yaml, s, s.threads[u]);
  }

  /** A step that leaves this thread and its resources alone leaves its budget alone. */
  lemma SameBudget(yaml: Yaml, s: State, s': State, t: ThreadId)
    requires IsWorking(s, t) && t in s'.threads && s'.threads[t] == s.threads[t]
    requires InCall(s.threads[t].at) ==>
        (s.threads[t].at.ref in s.store && s.threads[t].at.ref in s'.store && s'.store[s.threads[t].at.ref] == s.store[s.threads[t].at.ref])
    ensures IsWorking(s', t) && Budget(yaml, s', t) == Budget(yaml, s, t)
  {
    hide PlannedStreams, CallBudget, CallsBudget;
  }

  /** A step of another thread, or of none, leaves a working thread where it is. */
  lemma OthersKeepThread(yaml: Yaml, s: State, event: Event, t: ThreadId)
    requires Inv(yaml, s) && Enabled(s, event) && IsWorking(s, t) && !(event.Advance? && event.thread == t)
    ensures var s' := Step(yaml, s, event); t in s'.threads && s'.threads[t] == s.threads[t]
  {
    hide Inv, StepWorking, Answered, Open, Claim, Created;
    if event.Advance? && IsWorking(s, event.thread) { WorkingIsConfined(yaml, s, event.thread, event.answer); }
  }

  lemma OthersKeepBudget(yaml: Yaml, s: State, event: Event, t: ThreadId)
    requires Inv(yaml, s) && Enabled(s, event) && IsWorking(s, t)
    requires !(event.Advance? && event.thread == t)
    ensures var s' := Step(yaml, s, event);
      IsWorking(s', t) && Budget(yaml, s', t) == Budget(yaml, s, t)
  {
    hide Inv, Budget, StepWorking, Answered, Open, Claim, Created;
    if InCall(s.threads[t].at) { PointsIntoStore(yaml, s, t); }
    if event.Advance? && IsWorking(s, event.thread) {
      WorkingIsConfined(yaml, s, event.thread, event.answer);
      if InCall(s.threads[t].at) && InCall(s.threads[event.thread].at) {
        DifferentResources(yaml, s, t, event.thread);
      }
    }
    SameBudget(yaml, s, Step(yaml, s, event), t);
  }

  lemma PointsIntoStore(yaml: Yaml, s: State, t: ThreadId)
    requires Inv(yaml, s) && IsWorking(s, t) && InCall(s.threads[t].at)
    ensures s.threads[t].at.ref in s.store
  {
    hide ServiceInv, LockInv, StoreInv, PlaceOk, CallsDone;
    assert ThreadOk(yaml, s, s.threads[t]);
  }

  /** The steps that thread `t` takes itself. */
  function OwnSteps(events: seq<Event>, t: ThreadId): nat {
    if events == [] then 0
    else OwnSteps(events[..|events| - 1], t) + (if events[|events| - 1].Advance? && events[|events| - 1].thread == t then 1 else 0)
  }

  lemma OwnStepsOfLonger(events: seq<Event>, i: nat, j: nat, t: ThreadId)
    requires i < j <= |events|
    ensures OwnSteps(events[i..j], t)
         == OwnSteps(events[i..j - 1], t) + (if events[j - 1].Advance? && events[j - 1].thread == t then 1 else 0)
  {
    assert events[i..j][..j - 1 - i] == events[i..j - 1];
  }

  lemma StepSpends(yaml: Yaml, s: State, event: Event, t: ThreadId)
    requires Inv(yaml, s) && Enabled(s, event) && IsWorking(s, t) && IsWorking(Step(yaml, s, event), t)
    ensures Budget(yaml, Step(yaml, s, event), t) + (if event.Advance? && event.thread == t then 1 else 0) <= Budget(yaml, s, t)
  {
    hide Budget, Step, Inv;
    if event.Advance? && event.thread == t {
      OwnStepSpendsBudget(yaml, s, t, event.answer);
    } else {
      OthersKeepBudget(yaml, s, event, t);
    }
  }

  /**
   * While a lifecycle operation lasts, its thread takes at most as many steps as its budget allows,
   * under every interleaving. A new operation has a budget of at most 4 * (2 * n + 11) + 1 steps for
   * a graph with n planned streams.
   */
  lemma {:induction false} OperationsAreBounded(yaml: Yaml, states: seq<State>, events: seq<Event>, i: nat, j: nat, t: ThreadId)
    requires IsRun(yaml, states, events) && i <= j < |states|
    requires forall k :: i <= k <= j ==> IsWorking(states[k], t)
    ensures OwnSteps(events[i..j], t) + Budget(yaml, states[j], t) <= Budget(yaml, states[i], t)
    decreases j
  {
    hide Budget, Step, Inv, Enabled;
    if i == j {
      assert events[i..j] == [];
    } else {
      OperationsAreBounded(yaml, states, events, i, j - 1, t);
      RunKeeps(yaml, states, events, j - 1);
      RunStep(yaml, states, events, j - 1);
      OwnStepsOfLonger(events, i, j, t);
      hide IsRun, OwnSteps;
      var before, after := states[j - 1], states[j];
      assert IsWorking(before, t) && IsWorking(after, t);
      StepSpends(yaml, before, events[j - 1], t);
    }
  }

  lemma NewOperationBudget(yaml: Yaml, s: State, t: ThreadId, operation: Operation, id: SessionId)
    requires Free(s, t) && Open(s.service, operation, id).Claimed?
    ensures var s' := StepBegin(s, t, operation, id);
      IsWorking(s', t) && Budget(yaml, s', t) <= 4 * (2 * |PlannedStreams(yaml, s'.threads[t].session)| + 11) + 1
  {
    hide PlannedStreams, Open;
    var s' := StepBegin(s, t, operation, id);
    var n := |PlannedStreams(yaml, s'.threads[t].session)|;
    FewCalls(|s'.threads[t].calls|, n);
  }

  lemma FewCalls(calls: nat, n: nat)
    requires calls <= 4
    ensures CallsBudget(calls, n) <= 4 * (2 * n + 11)
  {
    assert CallsBudget(1, n) == 2 * n + 11 && CallsBudget(2, n) == 2 * (2 * n + 11) && CallsBudget(3, n) == 3 * (2 * n + 11);
  }
}
