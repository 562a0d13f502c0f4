/** What every run of the lifecycle guarantees, read off the two inductive invariants. */
module LifecycleTheorems {
  import opened Common
  import opened Pmt
  import opened Sessions
  import opened SessionStreams
  import opened StreamBindings
  import opened SessionServices
  import opened FlowGraphs
  import opened Lifecycle
  import opened LifecycleInvariant
  import opened LifecyclePorts
  import opened LifecycleFrames
  import opened LifecycleProgress
  import GraphTheorems
  import RewrittenGraphs
  import StreamContract

  // ----- sessions -----

  /**
   * The phase map has the repository's ids; every record is consistent; a session is in a busy phase
   * exactly while one thread operates on it, and its phase is the one that operation claimed.
   */
  lemma ServiceStateIsConsistent(yaml: Yaml, states: seq<State>, events: seq<Event>, i: nat, id: SessionId)
    requires IsRun(yaml, states, events) && i < |states|
    ensures var s := states[i];
      && s.service.phases.Keys == s.service.sessions.Keys
      && (id in s.service.sessions ==>
            var session, phase := s.service.sessions[id], s.service.phases[id];
            && session.id == id
            && (session.lastError.Some? <==> session.state.Error?)
            && (!Busy(phase) ==> PhaseOfState(session.state) == phase)
            && (Busy(phase) <==> exists t :: Operates(s, t, id)))
      && (forall t :: Operates(s, t, id) ==>
            && id in s.service.sessions && s.threads[t].session == s.service.sessions[id]
            && s.service.phases[id] == ClaimPhase(s.threads[t].operation))
      && (forall t, u :: Operates(s, t, id) && Operates(s, u, id) ==> t == u)
  {
    var s := states[i];
    RunKeeps(yaml, states, events, i);
    hide PlaceOk, CallsDone, StoreInv, LockInv, RuntimeAgrees;
    forall t | Operates(s, t, id)
      ensures id in s.service.sessions && s.threads[t].session == s.service.sessions[id]
           && s.service.phases[id] == ClaimPhase(s.threads[t].operation)
    {
      assert ThreadOk(yaml, s, s.threads[t]);
    }
    if id in s.service.sessions {
      assert SessionOk(s, id);
    }
  }

  /**
   * The phase an operation finds for a stored session is always the recorded one, never a guess from
   * the public state; unless an operation is in progress it is the phase that state stands for, and
   * both readings agree.
   */
  lemma LoadedPhaseIsRecorded(yaml: Yaml, states: seq<State>, events: seq<Event>, i: nat, id: SessionId)
    requires IsRun(yaml, states, events) && i < |states| && id in states[i].service.sessions
    ensures var service := states[i].service;
      var session := service.sessions[id];
      && session.id == id && id in service.phases && PhaseOf(service, session) == service.phases[id]
      && (PhaseOf(service, session) == PhaseOfState(session.state) || exists t :: Operates(states[i], t, id))
  {
    ServiceStateIsConsistent(yaml, states, events, i, id);
  }

  /**
   * With no operation in flight the service and the runtime agree: a running session has a live
   * execution that serves its stored graph, an idle one has nothing, and only stored sessions have
   * resources at all. A failed session has nothing, or an execution, running or not, that serves its
   * stored graph over ports of its own.
   */
  lemma ServiceAgreesWithRuntime(yaml: Yaml, states: seq<State>, events: seq<Event>, i: nat, id: SessionId)
    requires IsRun(yaml, states, events) && i < |states|
    requires forall t :: !Operates(states[i], t, id)
    ensures var s := states[i];
      && (id in s.table ==> id in s.service.sessions && s.table[id] in s.store)
      && (id in s.service.sessions ==> id in s.service.phases)
      && (id in s.service.sessions ==>
            match s.service.phases[id]
            case Running =>
              && s.service.sessions[id].state.Running?
              && id in s.table && IsLive(s.store[s.table[id]])
              && Serves(yaml, s.service.sessions[id], s.store[s.table[id]])
            case Idle => s.service.sessions[id].state.Stopped? && (id in s.table ==> Vacant(s.store[s.table[id]]))
            case Failed =>
              && s.service.sessions[id].state.Error?
              && (id in s.table ==>
                    || Vacant(s.store[s.table[id]])
                    || (&& s.store[s.table[id]].execution.Some?
                        && Serves(yaml, s.service.sessions[id], s.store[s.table[id]])
                        && Owned(s, ObjectOwner(s.table[id])) == s.store[s.table[id]].bindings
                        && PortsOf(s.store[s.table[id]].bindings) <= s.ports))
            case _ => false)
  {
    var s := states[i];
    RunKeeps(yaml, states, events, i);
    hide PlaceOk, CallsDone, Serves;
    if id in s.service.sessions {
      assert SessionOk(s, id);
      assert Busy(s.service.phases[id]) ==> exists t :: Operates(s, t, id);
      if id in s.table {
        UnattendedIsSettled(yaml, s, id);
        RunPorts(yaml, states, events, i);
        HeldPorts(s, s.table[id]);
      }
    }
  }

  /** Outside the release loop an object holds all its bindings, on allocated ports. */
  lemma HeldPorts(s: State, ref: Ref)
    requires PortInv(s) && ref in s.store && s.store[ref].released == 0
    ensures Owned(s, ObjectOwner(ref)) == s.store[ref].bindings && PortsOf(s.store[ref].bindings) <= s.ports
  {
    hide PortsOf, DistinctPorts;
    var bindings := s.store[ref].bindings;
    assert StillHeld(s.store[ref]) == bindings;
    forall port | port in PortsOf(bindings) ensures port in s.ports {
      assert Owns(s, ObjectOwner(ref), port);
    }
  }

  /**
   * A running session has passed the stream contract, and its stored graph could be rewritten: its
   * port numbers are in range and its planned names are bound.
   */
  lemma RunningSessionsAreLoadable(yaml: Yaml, states: seq<State>, events: seq<Event>, i: nat, id: SessionId)
    requires IsRun(yaml, states, events) && i < |states| && forall t :: !Operates(states[i], t, id)
    requires id in states[i].service.sessions && states[i].service.sessions[id].state.Running?
    ensures ContractErrorOf(yaml, states[i].service.sessions[id]).None?
    ensures GraphTheorems.Loadable(yaml, states[i].service.sessions[id].grcContent)
  {
    hide Step, Inv, LoadedGraph, PlansOf, ContractErrorOf, PlannedStreams, GraphTheorems.Loadable;
    var s := states[i];
    ServiceStateIsConsistent(yaml, states, events, i, id);
    ServiceAgreesWithRuntime(yaml, states, events, i, id);
    GraphTheorems.AcceptedSessionLoadsIff(yaml, s.service.sessions[id], s.store[s.table[id]].bindings);
  }

  /** The resources of a session are settled, or somebody operates on it. */
  lemma SettledOrAttended(yaml: Yaml, s: State, id: SessionId)
    requires Inv(yaml, s) && id in s.table
    ensures id in s.service.sessions && s.table[id] in s.store
    ensures Settled(yaml, s.service.sessions[id], s.store[s.table[id]]) || exists t :: Operates(s, t, id)
  {
    hide PlaceOk, CallsDone, Serves, ServiceInv;
    var ref := s.table[id];
    assert ResourcesOk(yaml, s, ref);
    if t :| LockedBy(s, ref, t) && t in s.threads && MidBody(s.threads[t]) {
      MidBodyIsOnItsOwn(yaml, s, ref, t);
      assert Operates(s, t, id);
    }
    if Vacant(s.store[ref]) {
      VacantIsSettled(yaml, s.service.sessions[id], s.store[ref]);
    }
  }

  lemma UnattendedIsSettled(yaml: Yaml, s: State, id: SessionId)
    requires Inv(yaml, s) && id in s.table && forall t :: !Operates(s, t, id)
    ensures id in s.service.sessions && s.table[id] in s.store
    ensures Settled(yaml, s.service.sessions[id], s.store[s.table[id]])
  {
    hide Inv, Settled;
    SettledOrAttended(yaml, s, id);
  }

  lemma VacantIsSettled(yaml: Yaml, session: Session, resources: Resources)
    requires Vacant(resources)
    ensures Settled(yaml, session, resources)
  {
  }

  /** Resources that are not in the table run nothing and hold no port; ids never share resources. */
  lemma NoOrphanedRuntime(yaml: Yaml, states: seq<State>, events: seq<Event>, i: nat, ref: Ref)
    requires IsRun(yaml, states, events) && i < |states| && ref in states[i].store
    ensures var s := states[i];
      && (Vacant(s.store[ref]) || (s.store[ref].sessionId in s.table && s.table[s.store[ref].sessionId] == ref))
      && (forall id :: id in s.table && s.table[id] == ref ==> id == s.store[ref].sessionId)
  {
    RunKeeps(yaml, states, events, i);
    assert ResourcesOk(yaml, states[i], ref);
  }

  function OperationName(operation: Operation): string {
    if operation.Start? then "start" else if operation.Stop? then "stop" else if operation.Restart? then "restart" else "remove"
  }

  /**
   * A closing section always finds its session, so it never reports that the session is unknown: a
   * returning operation leaves its session running, stopped or removed, a throwing one leaves it failed.
   */
  lemma ClosingSectionsFindTheirSession(yaml: Yaml, states: seq<State>, events: seq<Event>, i: nat, t: ThreadId, answer: Answer)
    requires IsRun(yaml, states, events) && i < |events| && events[i] == Advance(t, answer) && IsWorking(states[i], t)
    requires states[i].threads[t].at.Raised? || (states[i].threads[t].at.Between? && states[i].threads[t].calls == [])
    ensures var th, s, s' := states[i].threads[t], states[i], states[i + 1];
      var id := th.session.id;
      && id in s.service.sessions
      && s'.threads[t] == Done(if th.at.Raised? then Failure(RuntimeFailure) else Finished)
      && (if th.at.Raised? then
            && id in s'.service.sessions && id in s'.service.phases && s'.service.phases[id].Failed?
            && s'.service.sessions[id] == s.service.sessions[id].(
                 state := SessionState.Error, lastError := Some("runtime " + OperationName(th.operation) + " failed for session " + id))
          else if th.operation.Remove? then id !in s'.service.sessions && id !in s'.service.phases
          else
            && id in s'.service.sessions && id in s'.service.phases
            && s'.service.phases[id] == (if th.operation.Stop? then LifecyclePhase.Idle else LifecyclePhase.Running)
            && s'.service.sessions[id] == s.service.sessions[id].(
                 state := if th.operation.Stop? then SessionState.Stopped else SessionState.Running, lastError := None))
  {
    var s := states[i];
    RunKeeps(yaml, states, events, i);
    FailureIsNamed(s.threads[t].operation, s.threads[t].session.id);
    hide PlaceOk, CallsDone, StoreInv, LockInv, RuntimeAgrees, FailureMessage, OperationName;
    assert ThreadOk(yaml, s, s.threads[t]);
    assert SessionOk(s, s.threads[t].session.id);
  }

  lemma FailureIsNamed(operation: Operation, id: SessionId)
    ensures FailureMessage(operation, id) == "runtime " + OperationName(operation) + " failed for session " + id
  {
  }

  // ----- ports -----

  /**
   * No port is listed twice, in any session's bindings or any thread's half-built list, and the
   * allocator's set is exactly the listed ports and the leaked ones.
   */
  lemma PortsHaveOneOwner(yaml: Yaml, states: seq<State>, events: seq<Event>, i: nat)
    requires IsRun(yaml, states, events) && i < |states|
    ensures var s := states[i];
      && (forall owner, other, j, k ::
            && 0 <= j < |Owned(s, owner)| && 0 <= k < |Owned(s, other)|
            && Owned(s, owner)[j].internal.port == Owned(s, other)[k].internal.port
            ==> owner == other && j == k)
      && (forall port :: port in s.ports <==> port in s.leaked || exists owner :: Owns(s, owner, port))
      && (forall owner, port :: Owns(s, owner, port) ==> port !in s.leaked)
  {
    var s := states[i];
    RunPorts(yaml, states, events, i);
    hide Owned;
    forall owner, other, j, k |
      && 0 <= j < |Owned(s, owner)| && 0 <= k < |Owned(s, other)|
      && Owned(s, owner)[j].internal.port == Owned(s, other)[k].internal.port
      ensures owner == other && j == k
    {
      var port := Owned(s, owner)[j].internal.port;
      assert Owns(s, owner, port) && Owns(s, other, port);
      assert DistinctPorts(Owned(s, owner));
    }
  }

  /**
   * A port leaves the allocator's set only through the thread that owns it, from its own half-built
   * list or from the resources of the session it operates on, whose mutex it holds and whose scheduler
   * does not run.
   */
  lemma OnlyOwnersRelease(yaml: Yaml, states: seq<State>, events: seq<Event>, i: nat, port: Port)
    requires IsRun(yaml, states, events) && i < |events|
    requires port in states[i].ports && port !in states[i + 1].ports
    ensures events[i].Advance? && IsWorking(states[i], events[i].thread)
    ensures var s, t := states[i], events[i].thread;
      || Owns(s, ThreadOwner(t), port)
      || (&& s.threads[t].session.id in s.table
          && LockedBy(s, s.table[s.threads[t].session.id], t)
          && s.table[s.threads[t].session.id] in s.store
          && (var execution := s.store[s.table[s.threads[t].session.id]].execution; execution.Some? ==> !execution.value.running)
          && Owns(s, ObjectOwner(s.table[s.threads[t].session.id]), port))
    ensures forall owner :: Owns(states[i], owner, port) ==>
      || owner == ThreadOwner(events[i].thread)
      || (&& states[i].threads[events[i].thread].session.id in states[i].table
          && owner == ObjectOwner(states[i].table[states[i].threads[events[i].thread].session.id]))
  {
    var s := states[i];
    RunKeeps(yaml, states, events, i);
    RunPorts(yaml, states, events, i);
    var t := events[i].thread;
    ReleasingPositions(yaml, s, events[i], port);
    WhileInside(yaml, s, t);
    var ref := s.threads[t].at.ref;
    assert ref == s.table[s.threads[t].session.id];
    if s.threads[t].at.Undoing? {
      assert s.threads[t].at.built[0].internal.port == port;
      assert Owns(s, ThreadOwner(t), port);
    } else {
      assert StillHeld(s.store[ref])[0].internal.port == port;
      assert Owns(s, ObjectOwner(ref), port);
    }
  }

  /** The two places of the code that call the allocator's release. */
  lemma ReleasingPositions(yaml: Yaml, s: State, event: Event, port: Port)
    requires Inv(yaml, s) && Enabled(s, event) && port in s.ports && port !in Step(yaml, s, event).ports
    ensures event.Advance? && IsWorking(s, event.thread)
    ensures var at := s.threads[event.thread].at;
      || (at.Undoing? && at.built != [] && at.built[0].internal.port == port)
      || (&& at.Releasing? && at.ref in s.store && s.store[at.ref].released < |s.store[at.ref].bindings|
          && s.store[at.ref].bindings[s.store[at.ref].released].internal.port == port)
  {
    hide Inv, StepWorking, Answered, Open, Claim, Created;
    RefsAreOld(yaml, s);
    if event.Advance? && IsWorking(s, event.thread) {
      ReleasingMoves(yaml, s, event.thread, event.answer, port);
    }
  }

  lemma ReleasingMoves(yaml: Yaml, s: State, t: ThreadId, answer: Answer, port: Port)
    requires Enabled(s, Advance(t, answer)) && IsWorking(s, t) && forall ref :: ref in s.store ==> ref < s.nextRef
    requires port in s.ports && port !in StepWorking(yaml, s, t, answer).ports
    ensures var at := s.threads[t].at;
      || (at.Undoing? && at.built != [] && at.built[0].internal.port == port)
      || (&& at.Releasing? && at.ref in s.store && s.store[at.ref].released < |s.store[at.ref].bindings|
          && s.store[at.ref].bindings[s.store[at.ref].released].internal.port == port)
  {
    var at := s.threads[t].at;
    if at.Undoing? || at.Releasing? {
      hide PlannedStreams, StepAllocating;
    } else if at.Allocating? {
      hide FirstFree, PortsOf;
    } else {
      OtherMovesKeepPorts(yaml, s, t, answer);
    }
  }

  /** Only the loops over bindings touch the allocator. */
  lemma OtherMovesKeepPorts(yaml: Yaml, s: State, t: ThreadId, answer: Answer)
    requires Enabled(s, Advance(t, answer)) && IsWorking(s, t)
    requires var at := s.threads[t].at; !at.Undoing? && !at.Releasing? && !at.Allocating?
    requires forall ref :: ref in s.store ==> ref < s.nextRef
    ensures var s' := StepWorking(yaml, s, t, answer); s'.ports == s.ports && s'.leaked == s.leaked
  {
    if Resting(s.threads[t].at) {
      hide StepWorking;
      RestingIsQuiet(yaml, s, t, answer);
    } else {
      hide LoadedGraph, StepBetween, StepFetched, StepEntered, StepReleasing, StepAllocating, StepUndoing, StepPrepared,
           StepSchedulerStarting, StepSchedulerStopping, StepTorndown, StepErasing, StepRaised;
    }
  }

  /** The allocation loop fails at this step, after some streams have got their ports. */
  predicate AllocationFails(s: State, event: Event) {
    && event.Advance? && IsWorking(s, event.thread)
    && var at := s.threads[event.thread].at;
    && at.Allocating? && at.todo != []
    && (event.answer.Offers? ==> FirstFree(event.answer.offers, s.ports, MAX_ATTEMPTS).None?)
  }

  /**
   * Exact account of leaks: a step leaks nothing unless an allocation fails, and then exactly the
   * ports its own prepare had taken so far.
   */
  lemma LeaksExactly(yaml: Yaml, states: seq<State>, events: seq<Event>, i: nat)
    requires IsRun(yaml, states, events) && i < |events|
    ensures states[i + 1].leaked == states[i].leaked +
      if AllocationFails(states[i], events[i]) then PortsOf(states[i].threads[events[i].thread].at.built) else {}
    ensures AllocationFails(states[i], events[i]) ==>
      && states[i + 1].threads[events[i].thread].at.Raised?
      && states[i + 1].ports == states[i].ports
      && PortsOf(states[i].threads[events[i].thread].at.built) !! states[i].leaked
  {
    RunKeeps(yaml, states, events, i);
    RunPorts(yaml, states, events, i);
    RefsAreOld(yaml, states[i]);
    LeakStep(yaml, states[i], events[i]);
    if AllocationFails(states[i], events[i]) {
      var t := events[i].thread;
      forall port | port in PortsOf(states[i].threads[t].at.built) ensures port !in states[i].leaked {
        assert Owns(states[i], ThreadOwner(t), port);
      }
    }
  }

  lemma LeakStep(yaml: Yaml, s: State, event: Event)
    requires Enabled(s, event) && forall ref :: ref in s.store ==> ref < s.nextRef
    ensures var s' := Step(yaml, s, event);
      && s'.leaked == s.leaked + (if AllocationFails(s, event) then PortsOf(s.threads[event.thread].at.built) else {})
      && (AllocationFails(s, event) ==>
            && s'.ports == s.ports && event.thread in s'.threads
            && s'.threads[event.thread].Working? && s'.threads[event.thread].at.Raised?)
  {
    hide StepWorking, FirstFree, PortsOf, Answered, Open, Claim, Created;
    if event.Advance? && IsWorking(s, event.thread) { LeakMove(yaml, s, event.thread, event.answer); }
  }

  lemma LeakMove(yaml: Yaml, s: State, t: ThreadId, answer: Answer)
    requires Enabled(s, Advance(t, answer)) && IsWorking(s, t) && forall ref :: ref in s.store ==> ref < s.nextRef
    ensures var s', fails := StepWorking(yaml, s, t, answer), AllocationFails(s, Advance(t, answer));
      && s'.leaked == s.leaked + (if fails then PortsOf(s.threads[t].at.built) else {})
      && (fails ==> s'.ports == s.ports && t in s'.threads && s'.threads[t].Working? && s'.threads[t].at.Raised?)
  {
    hide FirstFree, PortsOf, PlannedStreams;
    var at := s.threads[t].at;
    if !at.Undoing? && !at.Releasing? && !at.Allocating? {
      hide StepWorking;
      OtherMovesKeepPorts(yaml, s, t, answer);
    }
  }

  /** Once every operation has ended and every session is stopped, only leaked ports are still allocated. */
  lemma StoppedSystemHoldsOnlyLeaks(yaml: Yaml, states: seq<State>, events: seq<Event>, i: nat)
    requires IsRun(yaml, states, events) && i < |states|
    requires forall t :: !IsWorking(states[i], t)
    requires forall id :: id in states[i].service.sessions ==> states[i].service.sessions[id].state.Stopped?
    ensures states[i].ports == states[i].leaked
  {
    var s := states[i];
    RunKeeps(yaml, states, events, i);
    RunPorts(yaml, states, events, i);
    forall owner, port ensures !Owns(s, owner, port) {
      match owner {
        case ThreadOwner(_) =>
        case ObjectOwner(ref) =>
          if ref in s.store {
            var id := s.store[ref].sessionId;
            NoOrphanedRuntime(yaml, states, events, i, ref);
            if id in s.table && s.table[id] == ref {
              assert forall t :: !Operates(s, t, id);
              ServiceStateIsConsistent(yaml, states, events, i, id);
              ServiceAgreesWithRuntime(yaml, states, events, i, id);
            }
          }
      }
    }
  }

  /** What the history of a runtime call says at the places where it matters. */
  lemma ReceiptAtTheEnds(yaml: Yaml, states: seq<State>, events: seq<Event>, i: nat, t: ThreadId)
    requires IsRun(yaml, states, events) && i < |states| && IsWorking(states[i], t)
    ensures var s, th := states[i], states[i].threads[t];
      && (th.at.Entered? ==> th.at.ref in s.store && th.receipt == Receipt(PortsOf(s.store[th.at.ref].bindings), {}))
      && (th.at.Torndown? || th.at.Erasing? ==>
            th.at.ref in s.store && th.receipt.freed == th.receipt.held && Vacant(s.store[th.at.ref]))
      && (th.at.Raised? ==> th.receipt.freed == {})
  {
    RunKeeps(yaml, states, events, i);
    assert ThreadOk(yaml, states[i], states[i].threads[t]);
  }

  /** The release loop records exactly the ports it takes out of the allocator's set; no other step of a body records any. */
  lemma ReceiptRecordsReleases(yaml: Yaml, s: State, t: ThreadId, answer: Answer)
    requires Inv(yaml, s) && PortInv(s) && Enabled(s, Advance(t, answer)) && IsWorking(s, t)
    requires var s' := StepWorking(yaml, s, t, answer); IsWorking(s', t)
    ensures var s', at := StepWorking(yaml, s, t, answer), s.threads[t].at;
      var before, after := s.threads[t].receipt, s'.threads[t].receipt;
      && (at.Releasing? ==> after == before.(freed := before.freed + (s.ports - s'.ports)))
      && (!at.Releasing? && !at.Fetched? ==> after == before)
  {
    RefsAreOld(yaml, s);
    OwnStep(yaml, s, t, answer);
    hide Inv, PortInv, Quiet, StepBetween, StepFetched, StepEntered, StepAtOnce, StepInOnce, StepReleasing, StepAllocating, StepLoading,
         StepUndoing, StepPrepared, StepSchedulerStarting, StepSchedulerStopping, StepTorndown, StepErasing, StepRaised;
    if Resting(s.threads[t].at) {
      hide StepWorking;
      RestingIsQuiet(yaml, s, t, answer);
      if !s.threads[t].at.Fetched? { QuietKeepsReceipt(s, StepWorking(yaml, s, t, answer), t); }
    } else if s.threads[t].at.Releasing? {
      ReleasedPortsWereHeld(yaml, s, t);
    } else {
      BuildingKeepsReceipt(yaml, s, t, s.threads[t].at.ref, answer);
      BootstrapKeepsReceipt(s, t, s.threads[t].at.ref, answer);
    }
  }

  lemma QuietKeepsReceipt(s: State, s': State, t: ThreadId)
    requires Quiet(s, s', t) && IsWorking(s, t) && IsWorking(s', t) && !s.threads[t].at.Fetched?
    ensures s'.threads[t].receipt == s.threads[t].receipt
  {
  }

  lemma BuildingKeepsReceipt(yaml: Yaml, s: State, t: ThreadId, ref: Ref, answer: Answer)
    requires IsWorking(s, t)
    ensures s.threads[t].at.Allocating? ==> StepAllocating(s, t, ref, answer).threads[t].receipt == s.threads[t].receipt
    ensures ref in s.store && s.threads[t].at.Loading? ==>
      StepLoading(yaml, s, t, ref, s.threads[t].at.built, answer).threads[t].receipt == s.threads[t].receipt
    ensures s.threads[t].at.Undoing? ==> StepUndoing(s, t, ref, s.threads[t].at.built).threads[t].receipt == s.threads[t].receipt
  {
    hide LoadedGraph, FirstFree, PortsOf;
  }

  lemma BootstrapKeepsReceipt(s: State, t: ThreadId, ref: Ref, answer: Answer)
    requires IsWorking(s, t)
    ensures StepAtOnce(s, t, ref).threads[t].receipt == s.threads[t].receipt
    ensures StepInOnce(s, t, ref, answer).threads[t].receipt == s.threads[t].receipt
  {
  }

  lemma ReleasedPortsWereHeld(yaml: Yaml, s: State, t: ThreadId)
    requires PortInv(s) && IsWorking(s, t) && s.threads[t].at.Releasing? && s.threads[t].at.ref in s.store
    ensures var at := s.threads[t].at;
      var s' := StepReleasing(yaml, s, t, at.ref, at.next);
      && IsWorking(s', t)
      && s'.threads[t].receipt == s.threads[t].receipt.(freed := s.threads[t].receipt.freed + (s.ports - s'.ports))
  {
    hide PlannedStreams, PortsOf, DistinctPorts;
    var ref := s.threads[t].at.ref;
    if s.store[ref].released < |s.store[ref].bindings| {
      var port := s.store[ref].bindings[s.store[ref].released].internal.port;
      assert StillHeld(s.store[ref])[0].internal.port == port;
      assert Owns(s, ObjectOwner(ref), port) by { HeadIsListed(StillHeld(s.store[ref])); }
      assert s.ports - (s.ports - {port}) == {port};
    } else {
      assert s.ports - s.ports == {} && s.threads[t].receipt.freed + {} == s.threads[t].receipt.freed;
    }
  }

  lemma HeadIsListed(bindings: seq<StreamBinding>)
    requires bindings != []
    ensures bindings[0].internal.port in PortsOf(bindings)
  {
  }

  /** The ports that the release loops of thread `t` take out of the allocator's set between two states of a run. */
  function FreedBy(states: seq<State>, events: seq<Event>, t: ThreadId, i: nat, j: nat): set<Port>
    requires i <= j < |states| && |states| == |events| + 1
    decreases j
  {
    if i == j then {}
    else
      FreedBy(states, events, t, i, j - 1) +
      if events[j - 1].Advance? && events[j - 1].thread == t && IsWorking(states[j - 1], t) && states[j - 1].threads[t].at.Releasing?
      then states[j - 1].ports - states[j].ports else {}
  }

  /** Thread `t` took a session's mutex at state `i` and has been in that one runtime call since. */
  ghost predicate InOneCall(states: seq<State>, t: ThreadId, i: nat, j: nat)
    requires i <= j < |states|
  {
    && (forall k :: i <= k <= j ==> IsWorking(states[k], t))
    && states[i].threads[t].at.Entered? && forall k :: i < k < j ==> !states[k].threads[t].at.Fetched?
  }

  lemma {:induction false} ReceiptIsFreed(yaml: Yaml, states: seq<State>, events: seq<Event>, t: ThreadId, i: nat, j: nat)
    requires IsRun(yaml, states, events) && i <= j < |states| && InOneCall(states, t, i, j)
    ensures states[i].threads[t].at.ref in states[i].store
    ensures states[j].threads[t].receipt
         == Receipt(PortsOf(states[i].store[states[i].threads[t].at.ref].bindings), FreedBy(states, events, t, i, j))
    decreases j
  {
    hide Step, Inv, PortInv, Enabled, PortsOf;
    ReceiptAtTheEnds(yaml, states, events, i, t);
    if i < j {
      ReceiptIsFreed(yaml, states, events, t, i, j - 1);
      RunKeeps(yaml, states, events, j - 1);
      RunPorts(yaml, states, events, j - 1);
      RunStep(yaml, states, events, j - 1);
      hide IsRun;
      var s, event := states[j - 1], events[j - 1];
      assert IsWorking(s, t) && IsWorking(states[j], t);
      if event.Advance? && event.thread == t {
        OwnStep(yaml, s, t, event.answer);
        ReceiptRecordsReleases(yaml, s, t, event.answer);
      } else {
        OthersKeepThread(yaml, s, event, t);
      }
    }
  }

  lemma OwnStep(yaml: Yaml, s: State, t: ThreadId, answer: Answer)
    requires IsWorking(s, t) && Enabled(s, Advance(t, answer))
    ensures WellPlaced(s, s.threads[t]) && Step(yaml, s, Advance(t, answer)) == StepWorking(yaml, s, t, answer)
  {
    hide StepWorking;
  }

  /**
   * Between taking the session's mutex and the end of the teardown, whatever other threads do, the
   * release loop of a stop or destroy takes exactly the ports out of the allocator's set that the
   * session held at first, and the session then holds none; a call that throws has taken out none.
   */
  lemma TeardownReturnsExactlyItsPorts(yaml: Yaml, states: seq<State>, events: seq<Event>, t: ThreadId, i: nat, j: nat)
    requires IsRun(yaml, states, events) && i <= j < |states| && InOneCall(states, t, i, j)
    ensures states[i].threads[t].at.ref in states[i].store
    ensures states[j].threads[t].at.Torndown? || states[j].threads[t].at.Erasing? ==>
      && FreedBy(states, events, t, i, j) == PortsOf(states[i].store[states[i].threads[t].at.ref].bindings)
      && states[j].threads[t].at.ref in states[j].store && Vacant(states[j].store[states[j].threads[t].at.ref])
    ensures states[j].threads[t].at.Raised? ==> FreedBy(states, events, t, i, j) == {}
  {
    ReceiptIsFreed(yaml, states, events, t, i, j);
    ReceiptAtTheEnds(yaml, states, events, j, t);
  }

  // ----- advertised plans and routes -----

  /** What the lookup of a stream finds: the first binding that fits, or nothing when none fits. */
  lemma {:induction false} FindBindingFinds(bindings: seq<StreamBinding>, streamId: string, webSocket: bool)
    ensures var found := FindBinding(bindings, streamId, webSocket);
      && (found.Absent? || found.Route?)
      && (found.Route? <==> exists k :: 0 <= k < |bindings| && bindings[k].plan.streamId == streamId
                                        && (bindings[k].plan.transport == "websocket") == webSocket)
      && (found.Route? ==> found.binding in bindings && found.binding.plan.streamId == streamId
                           && (found.binding.plan.transport == "websocket") == webSocket)
  {
    if bindings != [] {
      FindBindingFinds(bindings[1..], streamId, webSocket);
      if exists k :: 0 <= k < |bindings| && bindings[k].plan.streamId == streamId
                     && (bindings[k].plan.transport == "websocket") == webSocket {
        var k :| 0 <= k < |bindings| && bindings[k].plan.streamId == streamId
                 && (bindings[k].plan.transport == "websocket") == webSocket;
        assert k > 0 ==> bindings[1..][k - 1] == bindings[k];
      }
    }
  }

  /** The session whose resources a reader has just locked, and the plan those resources serve. */
  lemma LiveResourcesServeTheStoredGraph(yaml: Yaml, s: State, ref: Ref)
    requires Inv(yaml, s) && ref in s.store && ref !in s.locks && IsLive(s.store[ref])
    ensures var id := s.store[ref].sessionId;
      && id in s.table && s.table[id] == ref && id in s.service.sessions
      && s.service.sessions[id].id == id && AsAllocated(s.store[ref].bindings)
      && PlansOf(s.store[ref].bindings) == PlannedStreams(yaml, s.service.sessions[id])
  {
    hide LoadedGraph, PlannedStreams, PlansOf, ThreadInv;
    assert ResourcesOk(yaml, s, ref);
    assert forall t :: !LockedBy(s, ref, t);
    assert SessionOk(s, s.store[ref].sessionId);
  }

  lemma RoutesExclude(yaml: Yaml, session: Session, bindings: seq<StreamBinding>, streamId: string)
    requires PlansOf(bindings) == PlannedStreams(yaml, session)
    ensures !(FindBinding(bindings, streamId, false).Route? && FindBinding(bindings, streamId, true).Route?)
  {
    hide PlannedStreams, PlansOf, FindBinding;
    FindBindingFinds(bindings, streamId, false);
    FindBindingFinds(bindings, streamId, true);
    if FindBinding(bindings, streamId, false).Route? && FindBinding(bindings, streamId, true).Route? {
      var j :| 0 <= j < |bindings| && bindings[j].plan.streamId == streamId && (bindings[j].plan.transport == "websocket") == false;
      var k :| 0 <= k < |bindings| && bindings[k].plan.streamId == streamId && (bindings[k].plan.transport == "websocket") == true;
      DistinctStreams(yaml, session, bindings, j, k);
    }
  }

  /** A stream id is served over HTTP or over a websocket, never both. */
  lemma OneKindOfRoutePerStream(yaml: Yaml, states: seq<State>, events: seq<Event>, i: nat, ref: Ref, streamId: string)
    requires IsRun(yaml, states, events) && i < |states|
    requires ref in states[i].store && ref !in states[i].locks
    ensures !(&& Answered(states[i].store[ref], HttpRead(streamId)).Route?
              && Answered(states[i].store[ref], WebSocketRead(streamId)).Route?)
  {
    hide Inv, FindBinding, PlannedStreams, PlansOf, Step;
    var s := states[i];
    RunKeeps(yaml, states, events, i);
    if IsLive(s.store[ref]) {
      LiveResourcesServeTheStoredGraph(yaml, s, ref);
      RoutesExclude(yaml, s.service.sessions[s.store[ref].sessionId], s.store[ref].bindings, streamId);
    }
  }

  lemma DistinctStreams(yaml: Yaml, session: Session, bindings: seq<StreamBinding>, j: nat, k: nat)
    requires PlansOf(bindings) == PlannedStreams(yaml, session)
    requires j < |bindings| && k < |bindings| && bindings[j].plan.streamId == bindings[k].plan.streamId
    ensures j == k
  {
    StreamContract.ValidationAgreesWithDerivation(yaml, session);
    assert PlansOf(bindings)[j] == bindings[j].plan && PlansOf(bindings)[k] == bindings[k].plan;
  }

  // ----- the loaded graph -----

  /** For each binding the loaded graph has a block of the planned name with the endpoint of the binding, which is wired up by its plan. */
  ghost predicate EveryEndpointIsLoaded(resources: Resources) {
    forall k :: 0 <= k < |resources.bindings| ==>
      && resources.execution.Some? && resources.execution.value.graph.Some?
      && ItemsAt(resources.execution.value.graph.value, "blocks").Some?
      && GraphTheorems.EndpointIn(ItemsAt(resources.execution.value.graph.value, "blocks").value, resources.bindings[k])
      && Wired(resources.bindings[k])
  }

  /**
   * A running session's loaded graph has, for each advertised stream, a block of the planned name
   * whose endpoint parameter is the endpoint of that session's own port, for the planned transport.
   */
  lemma RunningGraphHasItsEndpoints(yaml: Yaml, states: seq<State>, events: seq<Event>, i: nat, id: SessionId)
    requires IsRun(yaml, states, events) && i < |states|
    requires forall t :: !Operates(states[i], t, id)
    requires id in states[i].service.sessions && states[i].service.sessions[id].state.Running?
    ensures var s := states[i];
      && id in s.table && s.table[id] in s.store && s.store[s.table[id]].execution.Some?
      && EveryEndpointIsLoaded(s.store[s.table[id]])
  {
    hide Inv, IsLive, Serves, Step, EveryEndpointIsLoaded;
    var s := states[i];
    ServiceStateIsConsistent(yaml, states, events, i, id);
    ServiceAgreesWithRuntime(yaml, states, events, i, id);
    assert s.service.phases[id].Running?;
    LiveHasExecution(s.store[s.table[id]]);
    ServedGraphHasEndpoints(yaml, s.service.sessions[id], s.store[s.table[id]]);
  }

  lemma AllWired(bindings: seq<StreamBinding>)
    requires AsAllocated(bindings)
    ensures forall k :: 0 <= k < |bindings| ==> Wired(bindings[k])
  {
    hide Wired, BindStream;
    forall k | 0 <= k < |bindings| ensures Wired(bindings[k]) {
      BoundIsWired(bindings[k].plan, bindings[k].internal.port);
    }
  }

  lemma LiveHasExecution(resources: Resources)
    requires IsLive(resources)
    ensures resources.execution.Some?
  {
  }

  lemma ServedGraphHasEndpoints(yaml: Yaml, session: Session, resources: Resources)
    requires resources.execution.Some? && Serves(yaml, session, resources)
    ensures EveryEndpointIsLoaded(resources)
  {
    hide InjectBindings, NormalizeConnections, NormalizeItems, GraphTheorems.EndpointIn, Wired;
    var bindings := resources.bindings;
    AllWired(bindings);
    if bindings != [] {
      assert |PlansOf(bindings)| == |bindings|;
      assert RuntimePlan(yaml, session).Some?;
      forall i, j | 0 <= i < j < |bindings| ensures bindings[i].plan.streamId != bindings[j].plan.streamId {
        if bindings[i].plan.streamId == bindings[j].plan.streamId {
          DistinctStreams(yaml, session, bindings, i, j);
        }
      }
      var root := yaml(session.grcContent).value;
      var items := ItemsAt(root, "blocks").value;
      var normal := NormalizeLinks(NormalizeBlocks(root)).value;
      assert ItemsAt(normal, "blocks") == Some(NormalizeItems(items));
      GraphTheorems.InjectionIsComplete(normal, bindings, NormalizeItems(items));
    }
  }

  /**
   * What a running session has loaded is its stored graph, place by place, with the endpoints of its own
   * bindings in the blocks of their names; a text that is no graph is passed on as it is.
   */
  lemma RunningGraphIsTheStoredOne(yaml: Yaml, states: seq<State>, events: seq<Event>, i: nat, id: SessionId)
    requires IsRun(yaml, states, events) && i < |states|
    requires forall t :: !Operates(states[i], t, id)
    requires id in states[i].service.sessions && states[i].service.sessions[id].state.Running?
    ensures var s := states[i];
      && id in s.table && s.table[id] in s.store && s.store[s.table[id]].execution.Some?
      && var loaded := s.store[s.table[id]].execution.value.graph;
      match yaml(s.service.sessions[id].grcContent)
      case None => loaded.None?
      case Some(root) => loaded.Some? && RewrittenGraphs.GraphBecomes(root, s.store[s.table[id]].bindings, loaded.value)
  {
    hide Inv, IsLive, Serves, Step, RewrittenGraphs.GraphBecomes;
    var s := states[i];
    ServiceStateIsConsistent(yaml, states, events, i, id);
    ServiceAgreesWithRuntime(yaml, states, events, i, id);
    assert s.service.phases[id].Running?;
    LiveHasExecution(s.store[s.table[id]]);
    ServedGraphIsRewritten(yaml, s.service.sessions[id], s.store[s.table[id]]);
  }

  lemma ServedGraphIsRewritten(yaml: Yaml, session: Session, resources: Resources)
    requires resources.execution.Some? && Serves(yaml, session, resources)
    ensures match yaml(session.grcContent)
      case None => resources.execution.value.graph.None?
      case Some(root) =>
        resources.execution.value.graph.Some?
        && RewrittenGraphs.GraphBecomes(root, resources.bindings, resources.execution.value.graph.value)
  {
    hide NormalizeGraph, ContractErrorOf, PlannedStreams, RewrittenGraphs.GraphBecomes;
    var root := yaml(session.grcContent);
    if root.Some? { RewrittenGraphs.GraphMeans(root.value, resources.bindings); }
  }
}
