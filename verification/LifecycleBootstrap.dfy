/**
 * The plugin bootstrap behind a process-wide once-flag, which prepare calls while it holds a session's
 * mutex, and who waits for whom in the transition system.
 */
module LifecycleBootstrap {
  import opened Common
  import opened Pmt
  import opened Sessions
  import opened SessionStreams
  import opened StreamBindings
  import opened SessionServices
  import opened FlowGraphs
  import opened Lifecycle
  import opened LifecycleInvariant
  import opened LifecycleFrames
  import opened LifecyclePorts

  // ----- the once-flag -----

  /** A place of prepare that is only reached past a successful bootstrap. */
  predicate PastOnce(at: Position) {
    (at.Releasing? && at.next.ThenAllocate?) || at.Allocating? || at.Loading?
  }

  /** One thread at most runs the bootstrap; nothing is built or executed unless it has succeeded. */
  ghost predicate OnceInv(s: State) {
    && (forall t :: IsWorking(s, t) && s.threads[t].at.InOnce? ==> s.once == CalledBy(t))
    && (s.once.CalledBy? ==> IsWorking(s, s.once.thread) && s.threads[s.once.thread].at.InOnce?)
    && (forall t :: IsWorking(s, t) && PastOnce(s.threads[t].at) ==> s.once == Returned(false))
    && (forall ref :: ref in s.store && s.store[ref].execution.Some? ==> s.once == Returned(false))
  }

  /** What a step does to the flag, the moving thread and the executions, seen from the flag. */
  ghost predicate OnceStep(s: State, s': State, t: ThreadId) {
    && t in s'.threads && s'.threads == s.threads[t := s'.threads[t]]
    && (forall ref :: ref in s'.store && s'.store[ref].execution.Some? ==>
          s'.once == Returned(false) || (ref in s.store && s.store[ref].execution.Some?))
    && (IsWorking(s', t) && PastOnce(s'.threads[t].at) ==> s'.once == Returned(false))
    && (|| (&& s'.once == s.once && !(IsWorking(s, t) && s.threads[t].at.InOnce?)
            && !(IsWorking(s', t) && s'.threads[t].at.InOnce?))
        || (s.once == NotCalled && s'.once == CalledBy(t) && IsWorking(s', t) && s'.threads[t].at.InOnce?)
        || (s.once == CalledBy(t) && s'.once.Returned? && !(IsWorking(s', t) && s'.threads[t].at.InOnce?)))
  }

  lemma OnceStepKeeps(s: State, s': State, t: ThreadId)
    requires OnceInv(s) && OnceStep(s, s', t)
    ensures OnceInv(s')
    ensures s.once.Returned? ==> s'.once == s.once
  {
    hide PastOnce;
  }

  /** A quiet step leaves flag and executions alone. */
  lemma QuietOnce(s: State, s': State, t: ThreadId)
    requires OnceInv(s) && Quiet(s, s', t) && !(IsWorking(s, t) && s.threads[t].at.InOnce?)
    ensures OnceStep(s, s', t)
  {
  }

  lemma UndoingOnce(yaml: Yaml, s: State, t: ThreadId)
    requires OnceInv(s) && IsWorking(s, t) && s.threads[t].at.Undoing?
    ensures OnceStep(s, StepUndoing(s, t, s.threads[t].at.ref, s.threads[t].at.built), t)
  {
  }

  lemma FlagOnce(yaml: Yaml, s: State, t: ThreadId, answer: Answer)
    requires OnceInv(s) && Enabled(s, Advance(t, answer)) && IsWorking(s, t)
    requires s.threads[t].at.AtOnce? || s.threads[t].at.InOnce?
    ensures OnceStep(s, StepWorking(yaml, s, t, answer), t)
  {
    hide StepBetween, StepFetched, StepEntered, StepReleasing, StepAllocating, StepLoading, StepUndoing,
         StepPrepared, StepSchedulerStarting, StepSchedulerStopping, StepTorndown, StepErasing, StepRaised;
  }

  lemma ReleasingOnce(yaml: Yaml, s: State, t: ThreadId, ref: Ref)
    requires OnceInv(s) && IsWorking(s, t) && s.threads[t].at.Releasing? && s.threads[t].at.ref == ref && ref in s.store
    ensures OnceStep(s, StepReleasing(yaml, s, t, ref, s.threads[t].at.next), t)
  {
    hide PlannedStreams;
    var s' := StepReleasing(yaml, s, t, ref, s.threads[t].at.next);
    assert s'.once == s.once && s'.store == s.store[ref := s'.store[ref]];
  }

  lemma AllocatingOnce(s: State, t: ThreadId, ref: Ref, answer: Answer)
    requires OnceInv(s) && IsWorking(s, t) && s.threads[t].at.Allocating?
    ensures OnceStep(s, StepAllocating(s, t, ref, answer), t)
  {
    hide PortsOf, FirstFree;
  }

  lemma LoadingOnce(yaml: Yaml, s: State, t: ThreadId, ref: Ref, answer: Answer)
    requires OnceInv(s) && IsWorking(s, t) && s.threads[t].at.Loading? && ref in s.store
    ensures OnceStep(s, StepLoading(yaml, s, t, ref, s.threads[t].at.built, answer), t)
  {
    hide LoadedGraph;
  }

  lemma WorkingOnce(yaml: Yaml, s: State, t: ThreadId, answer: Answer)
    requires OnceInv(s) && Enabled(s, Advance(t, answer)) && IsWorking(s, t)
    requires forall ref :: ref in s.store ==> ref < s.nextRef
    ensures OnceStep(s, StepWorking(yaml, s, t, answer), t)
  {
    hide OnceInv, OnceStep, Quiet, StepReleasing, StepAllocating, StepLoading, StepUndoing, StepAtOnce, StepInOnce;
    var at := s.threads[t].at;
    if Resting(at) {
      hide StepWorking;
      RestingIsQuiet(yaml, s, t, answer);
      QuietOnce(s, StepWorking(yaml, s, t, answer), t);
    } else {
      hide StepBetween, StepFetched, StepEntered, StepPrepared, StepSchedulerStarting, StepSchedulerStopping, StepTorndown,
           StepErasing, StepRaised;
      match at {
        case Releasing(ref, _) => ReleasingOnce(yaml, s, t, ref);
        case Allocating(ref, _, _) => AllocatingOnce(s, t, ref, answer);
        case Loading(ref, _) => LoadingOnce(yaml, s, t, ref, answer);
        case Undoing(_, _) => UndoingOnce(yaml, s, t);
        case _ => FlagOnce(yaml, s, t, answer);
      }
    }
  }

  /** Every step keeps the flag's invariant, and a bootstrap that has ended, well or not, stays ended that way. */
  lemma StepKeepsOnce(yaml: Yaml, s: State, event: Event)
    requires OnceInv(s) && Enabled(s, event) && forall ref :: ref in s.store ==> ref < s.nextRef
    ensures OnceInv(Step(yaml, s, event))
    ensures s.once.Returned? ==> Step(yaml, s, event).once == s.once
  {
    hide OnceInv, OnceStep, Quiet, StepWorking, StepReading, Created, Open, Claim, Program;
    var s' := Step(yaml, s, event);
    match event {
      case CreateSession(session) => SameOnce(s, s');
      case Begin(t, _, _) =>
        BeginningIsQuiet(s, s', t);
        QuietOnce(s, s', t);
        OnceStepKeeps(s, s', t);
      case BeginRead(t, _, _) =>
        BeginningIsQuiet(s, s', t);
        QuietOnce(s, s', t);
        OnceStepKeeps(s, s', t);
      case Advance(t, answer) =>
        if IsWorking(s, t) {
          WorkingOnce(yaml, s, t, answer);
        } else {
          ReadingIsQuiet(s, t);
          QuietOnce(s, s', t);
        }
        OnceStepKeeps(s, s', t);
    }
  }

  lemma SameOnce(s: State, s': State)
    requires OnceInv(s) && s' == s.(service := s'.service)
    ensures OnceInv(s')
  {
    hide PastOnce;
  }

  lemma {:induction false} RunKeepsOnce(yaml: Yaml, states: seq<State>, events: seq<Event>, i: nat)
    requires IsRun(yaml, states, events) && i < |states|
    ensures OnceInv(states[i])
  {
    hide OnceInv, Inv, Step, Enabled;
    if i == 0 {
      NothingOnce();
    } else {
      RunKeepsOnce(yaml, states, events, i - 1);
      RunStep(yaml, states, events, i - 1);
      RunKeeps(yaml, states, events, i - 1);
      RefsAreOld(yaml, states[i - 1]);
      StepKeepsOnce(yaml, states[i - 1], events[i - 1]);
    }
  }

  lemma NothingOnce()
    ensures OnceInv(INIT)
  {
  }

  /**
   * The bootstrap is run by one thread at a time and never again once it has ended; if it failed, no
   * session executes anything from then on, however often it is started.
   */
  lemma {:induction false} BootstrapEndsOnce(yaml: Yaml, states: seq<State>, events: seq<Event>, i: nat, j: nat)
    requires IsRun(yaml, states, events) && i <= j < |states| && states[i].once.Returned?
    ensures states[j].once == states[i].once
    ensures states[i].once.failed ==> forall ref :: ref in states[j].store ==> states[j].store[ref].execution.None?
    decreases j
  {
    hide Inv, Step, Enabled;
    RunKeepsOnce(yaml, states, events, j);
    if i < j {
      BootstrapEndsOnce(yaml, states, events, i, j - 1);
      RunKeepsOnce(yaml, states, events, j - 1);
      RunStep(yaml, states, events, j - 1);
      RunKeeps(yaml, states, events, j - 1);
      RefsAreOld(yaml, states[j - 1]);
      hide OnceInv, IsRun;
      StepKeepsOnce(yaml, states[j - 1], events[j - 1]);
    }
  }

  // ----- waiting -----

  /** The session a thread works on or reads. */
  function SessionOf(th: Thread): SessionId {
    if th.Done? then "" else th.session.id
  }

  /** Thread `t` waits for the bootstrap that another thread runs. */
  predicate AtTheFlag(s: State, t: ThreadId) {
    IsWorking(s, t) && s.threads[t].at.AtOnce? && s.once.CalledBy?
  }

  /** Thread `t` waits for the mutex of its own session, which `u` holds. */
  ghost predicate WaitsOnSession(s: State, t: ThreadId, u: ThreadId) {
    && t in s.threads && u in s.threads && u != t && !s.threads[t].Done? && !s.threads[u].Done?
    && SessionOf(s.threads[u]) == SessionOf(s.threads[t])
    && exists ref :: LockedBy(s, ref, u) && (s.threads[t].Working? ==> s.threads[t].at == Fetched(ref))
                     && (s.threads[t].Reading? ==> s.threads[t].place == ReadFetched(ref))
  }

  ghost predicate CanMove(s: State, t: ThreadId) {
    forall answer :: Enabled(s, Advance(t, answer))
  }

  /**
   * Every unfinished thread can take its next step whatever the environment answers, unless it waits
   * for the mutex of its own session, whose holder is another thread on the same session, or for the
   * bootstrap. A holder can move unless it waits for the bootstrap itself, and the thread that runs
   * the bootstrap can always move. So some thread can always move, and as long as no bootstrap is
   * running, a thread stuck in one session's runtime call delays nobody on another session.
   */
  lemma WaitingIsWithinOneSession(yaml: Yaml, states: seq<State>, events: seq<Event>, i: nat, t: ThreadId)
    requires IsRun(yaml, states, events) && i < |states|
    requires t in states[i].threads && !states[i].threads[t].Done?
    ensures var s := states[i];
      && (CanMove(s, t) || AtTheFlag(s, t) || exists u :: WaitsOnSession(s, t, u) && (CanMove(s, u) || AtTheFlag(s, u)))
      && (s.once.CalledBy? ==> IsWorking(s, s.once.thread) && s.threads[s.once.thread].at.InOnce? && CanMove(s, s.once.thread))
  {
    var s := states[i];
    RunKeeps(yaml, states, events, i);
    RunKeepsOnce(yaml, states, events, i);
    hide IsRun, Step;
    WaitingNow(yaml, s, t);
    if s.once.CalledBy? { UnfinishedIsWellPlaced(yaml, s, s.once.thread); }
  }

  lemma WaitingNow(yaml: Yaml, s: State, t: ThreadId)
    requires Inv(yaml, s) && t in s.threads && !s.threads[t].Done?
    ensures CanMove(s, t) || AtTheFlag(s, t) || exists u :: WaitsOnSession(s, t, u) && (CanMove(s, u) || AtTheFlag(s, u))
  {
    UnfinishedIsWellPlaced(yaml, s, t);
    if Blocked(s, s.threads[t]) && !AtTheFlag(s, t) {
      var ref := if s.threads[t].Working? then s.threads[t].at.ref else s.threads[t].place.ref;
      var u := s.locks[ref];
      assert LockedBy(s, ref, u);
      assert LockInv(s);
      hide Inv;
      HolderIsOnTheSession(yaml, s, t, u, ref);
      assert WaitsOnSession(s, t, u);
    }
  }

  lemma UnfinishedIsWellPlaced(yaml: Yaml, s: State, t: ThreadId)
    requires Inv(yaml, s) && t in s.threads && !s.threads[t].Done?
    ensures WellPlaced(s, s.threads[t])
  {
    hide ServiceInv, StoreInv, LockInv, Serves, CallsDone;
    assert ThreadOk(yaml, s, s.threads[t]);
  }

  lemma HolderIsOnTheSession(yaml: Yaml, s: State, t: ThreadId, u: ThreadId, ref: Ref)
    requires Inv(yaml, s) && t in s.threads && u in s.threads && LockedBy(s, ref, u)
    requires (s.threads[t].Working? && s.threads[t].at == Fetched(ref)) || (s.threads[t].Reading? && s.threads[t].place == ReadFetched(ref))
    ensures u != t && !s.threads[u].Done? && SessionOf(s.threads[u]) == SessionOf(s.threads[t])
    ensures WellPlaced(s, s.threads[u]) && (Blocked(s, s.threads[u]) ==> AtTheFlag(s, u))
  {
    hide PlaceOk, Serves, CallsDone, ServiceInv, ResourcesOk;
    assert Holds(s.threads[u]) == Some(ref);
    assert ThreadOk(yaml, s, s.threads[t]) && ThreadOk(yaml, s, s.threads[u]);
    UnfinishedIsWellPlaced(yaml, s, u);
  }
}
