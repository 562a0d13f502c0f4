/** Who owns which allocated port, in every state of every run. */
module LifecyclePorts {
  import opened Common
  import opened Pmt
  import opened Sessions
  import opened SessionStreams
  import opened StreamBindings
  import opened SessionServices
  import opened FlowGraphs
  import opened Lifecycle
  import opened LifecycleInvariant
  import opened LifecycleFrames

  /** A port is owned through a session's resources, or through the half-built list of a thread. */
  datatype Owner = ObjectOwner(ref: Ref) | ThreadOwner(thread: ThreadId)

  function BuiltBy(th: Thread): seq<StreamBinding> {
    if !th.Working? then []
    else match th.at
      case Allocating(_, built, _) => built
      case Loading(_, built) => built
      case Undoing(_, built) => built
      case _ => []
  }

  /** Bindings the release loop has already passed are no longer owned. */
  function StillHeld(resources: Resources): seq<StreamBinding> {
    if resources.released <= |resources.bindings| then resources.bindings[resources.released..] else []
  }

  function Owned(s: State, owner: Owner): seq<StreamBinding> {
    match owner
    case ObjectOwner(ref) => if ref in s.store then StillHeld(s.store[ref]) else []
    case ThreadOwner(t) => if t in s.threads then BuiltBy(s.threads[t]) else []
  }

  predicate Owns(s: State, owner: Owner, port: Port) {
    port in PortsOf(Owned(s, owner))
  }

  /**
   * The ledger: nobody lists a port twice, no port has two owners, a leaked port has none, and the
   * allocator's set is exactly the owned and the leaked ports.
   */
  ghost predicate PortInv(s: State) {
    && (forall ref :: ref in s.store ==> s.store[ref].released <= |s.store[ref].bindings|)
    && (forall owner :: DistinctPorts(Owned(s, owner)))
    && (forall owner, other, port :: Owns(s, owner, port) && Owns(s, other, port) ==> owner == other)
    && (forall owner, port :: Owns(s, owner, port) ==> port !in s.leaked)
    && (forall port :: port in s.ports <==> port in s.leaked || exists owner :: Owns(s, owner, port))
  }

  // ----- the five things a step can do to the ledger -----

  ghost predicate SameLedger(s: State, s': State) {
    && (forall owner :: Owned(s', owner) == Owned(s, owner)) && s'.ports == s.ports && s'.leaked == s.leaked
  }

  /** A fresh port goes to the acting thread. */
  ghost predicate Takes(s: State, s': State, t: ThreadId, binding: StreamBinding) {
    && binding.internal.port !in s.ports
    && Owned(s', ThreadOwner(t)) == Owned(s, ThreadOwner(t)) + [binding]
    && (forall owner :: owner != ThreadOwner(t) ==> Owned(s', owner) == Owned(s, owner))
    && s'.ports == s.ports + {binding.internal.port} && s'.leaked == s.leaked
  }

  /** An owner gives its first port back. */
  ghost predicate GivesBack(s: State, s': State, owner: Owner) {
    && Owned(s, owner) != []
    && Owned(s', owner) == Owned(s, owner)[1..]
    && (forall other :: other != owner ==> Owned(s', other) == Owned(s, other))
    && s'.ports == s.ports - {Owned(s, owner)[0].internal.port} && s'.leaked == s.leaked
  }

  /** A thread's list becomes the bindings of a session that held none. */
  ghost predicate HandsOver(s: State, s': State, t: ThreadId, ref: Ref) {
    && Owned(s, ObjectOwner(ref)) == [] && Owned(s', ObjectOwner(ref)) == Owned(s, ThreadOwner(t))
    && Owned(s', ThreadOwner(t)) == []
    && (forall owner :: owner != ThreadOwner(t) && owner != ObjectOwner(ref) ==> Owned(s', owner) == Owned(s, owner))
    && s'.ports == s.ports && s'.leaked == s.leaked
  }

  /** A thread's list is abandoned. */
  ghost predicate Leaks(s: State, s': State, t: ThreadId) {
    && Owned(s', ThreadOwner(t)) == []
    && (forall owner :: owner != ThreadOwner(t) ==> Owned(s', owner) == Owned(s, owner))
    && s'.ports == s.ports && s'.leaked == s.leaked + PortsOf(Owned(s, ThreadOwner(t)))
  }

  ghost predicate InRange(s: State) {
    forall ref :: ref in s.store ==> s.store[ref].released <= |s.store[ref].bindings|
  }

  lemma SameLedgerKeeps(s: State, s': State)
    requires PortInv(s) && SameLedger(s, s') && InRange(s')
    ensures PortInv(s')
  {
    assert forall owner, port :: Owns(s', owner, port) <==> Owns(s, owner, port);
  }

  lemma PortsOfTail(bindings: seq<StreamBinding>)
    requires bindings != [] && DistinctPorts(bindings)
    ensures PortsOf(bindings[1..]) == PortsOf(bindings) - {bindings[0].internal.port}
    ensures DistinctPorts(bindings[1..])
    ensures bindings[0].internal.port in PortsOf(bindings)
  {
    forall port | port in PortsOf(bindings) && port != bindings[0].internal.port ensures port in PortsOf(bindings[1..]) {
      var i :| 0 <= i < |bindings| && bindings[i].internal.port == port;
      assert bindings[1..][i - 1].internal.port == port;
    }
  }

  lemma TakesKeeps(s: State, s': State, t: ThreadId, binding: StreamBinding)
    requires PortInv(s) && Takes(s, s', t, binding) && InRange(s')
    ensures PortInv(s')
  {
    var port, me := binding.internal.port, ThreadOwner(t);
    hide Owned, PortsOf;
    PortsOfAppend(Owned(s, me), binding);
    assert !Owns(s, me, port);
    forall owner, p ensures Owns(s', owner, p) <==> Owns(s, owner, p) || (owner == me && p == port) { }
    FreshKeepsDistinct(Owned(s, me), binding);
    forall p ensures p in s'.ports <==> p in s'.leaked || exists owner :: Owns(s', owner, p) {
      if p == port { assert Owns(s', me, p); }
      else if exists owner :: Owns(s, owner, p) { var owner :| Owns(s, owner, p); assert Owns(s', owner, p); }
    }
  }

  lemma FreshKeepsDistinct(bindings: seq<StreamBinding>, binding: StreamBinding)
    requires DistinctPorts(bindings) && binding.internal.port !in PortsOf(bindings)
    ensures DistinctPorts(bindings + [binding])
  {
  }

  lemma GivesBackKeeps(s: State, s': State, owner: Owner)
    requires PortInv(s) && GivesBack(s, s', owner) && InRange(s')
    ensures PortInv(s')
  {
    hide Owned, PortsOf;
    var port := Owned(s, owner)[0].internal.port;
    PortsOfTail(Owned(s, owner));
    forall o, p ensures Owns(s', o, p) <==> Owns(s, o, p) && !(o == owner && p == port) { }
    assert Owns(s, owner, port);
    forall p ensures p in s'.ports <==> p in s'.leaked || exists o :: Owns(s', o, p) {
      if exists o :: Owns(s, o, p) {
        var o :| Owns(s, o, p);
        assert p != port ==> Owns(s', o, p);
      }
    }
  }

  lemma HandsOverKeeps(s: State, s': State, t: ThreadId, ref: Ref)
    requires PortInv(s) && HandsOver(s, s', t, ref) && InRange(s')
    ensures PortInv(s')
  {
    hide Owned, PortsOf;
    var from, to := ThreadOwner(t), ObjectOwner(ref);
    NoBindingsNoPorts();
    forall o, p ensures Owns(s', o, p) <==> (if o == to then Owns(s, from, p) else o != from && Owns(s, o, p)) { }
    assert forall p :: !Owns(s, to, p);
    forall p ensures p in s'.ports <==> p in s'.leaked || exists o :: Owns(s', o, p) {
      if exists o :: Owns(s, o, p) {
        var o :| Owns(s, o, p);
        assert Owns(s', if o == from then to else o, p);
      }
    }
  }

  lemma LeaksKeeps(s: State, s': State, t: ThreadId)
    requires PortInv(s) && Leaks(s, s', t) && InRange(s')
    ensures PortInv(s')
  {
    hide Owned, PortsOf;
    var me := ThreadOwner(t);
    NoBindingsNoPorts();
    forall o, p ensures Owns(s', o, p) <==> o != me && Owns(s, o, p) { }
    forall p ensures p in s'.leaked <==> p in s.leaked || Owns(s, me, p) { }
    forall p ensures p in s'.ports <==> p in s'.leaked || exists o :: Owns(s', o, p) {
      if exists o :: Owns(s, o, p) {
        var o :| Owns(s, o, p);
        assert o == me || Owns(s', o, p);
      }
    }
  }

  // ----- every step does one of the five -----

  /** A thread that lists nothing stays out of the ledger; so do resources whose bindings do not change. */
  ghost predicate LedgerStep(s: State, s': State) {
    && InRange(s')
    && (|| SameLedger(s, s')
        || (exists t, binding :: Takes(s, s', t, binding))
        || (exists owner :: GivesBack(s, s', owner))
        || (exists t, ref :: HandsOver(s, s', t, ref))
        || (exists t :: Leaks(s, s', t)))
  }

  lemma LedgerStepKeeps(s: State, s': State)
    requires PortInv(s) && LedgerStep(s, s')
    ensures PortInv(s')
  {
    hide PortInv, SameLedger, Takes, GivesBack, HandsOver, Leaks, InRange;
    if SameLedger(s, s') { SameLedgerKeeps(s, s'); }
    else if t, binding :| Takes(s, s', t, binding) { TakesKeeps(s, s', t, binding); }
    else if owner :| GivesBack(s, s', owner) { GivesBackKeeps(s, s', owner); }
    else if t, ref :| HandsOver(s, s', t, ref) { HandsOverKeeps(s, s', t, ref); }
    else { var t :| Leaks(s, s', t); LeaksKeeps(s, s', t); }
  }

  lemma AllocatingLedger(yaml: Yaml, s: State, t: ThreadId, answer: Answer)
    requires PortInv(s) && IsWorking(s, t) && s.threads[t].at.Allocating?
    ensures LedgerStep(s, StepAllocating(s, t, s.threads[t].at.ref, answer))
  {
    hide PortsOf;
    var at := s.threads[t].at;
    var s' := StepAllocating(s, t, at.ref, answer);
    if at.todo == [] {
      assert SameLedger(s, s');
    } else {
      var port := if answer.Offers? then FirstFree(answer.offers, s.ports, MAX_ATTEMPTS) else None;
      if port.Some? {
        assert Takes(s, s', t, BindStream(at.todo[0], port.value));
      } else {
        assert Leaks(s, s', t);
      }
    }
  }

  lemma ReleasingLedger(yaml: Yaml, s: State, t: ThreadId)
    requires PortInv(s) && IsWorking(s, t) && s.threads[t].at.Releasing? && s.threads[t].at.ref in s.store
    ensures LedgerStep(s, StepReleasing(yaml, s, t, s.threads[t].at.ref, s.threads[t].at.next))
  {
    if s.store[s.threads[t].at.ref].released < |s.store[s.threads[t].at.ref].bindings| {
      ReleaseOneLedger(yaml, s, t);
    } else {
      ReleaseEndLedger(yaml, s, t);
    }
  }

  lemma ReleaseOneLedger(yaml: Yaml, s: State, t: ThreadId)
    requires PortInv(s) && IsWorking(s, t) && s.threads[t].at.Releasing? && s.threads[t].at.ref in s.store
    requires s.store[s.threads[t].at.ref].released < |s.store[s.threads[t].at.ref].bindings|
    ensures LedgerStep(s, StepReleasing(yaml, s, t, s.threads[t].at.ref, s.threads[t].at.next))
  {
    hide PortsOf, PlannedStreams;
    var ref := s.threads[t].at.ref;
    var s' := StepReleasing(yaml, s, t, ref, s.threads[t].at.next);
    assert GivesBack(s, s', ObjectOwner(ref));
  }

  lemma ReleaseEndLedger(yaml: Yaml, s: State, t: ThreadId)
    requires PortInv(s) && IsWorking(s, t) && s.threads[t].at.Releasing? && s.threads[t].at.ref in s.store
    requires s.store[s.threads[t].at.ref].released >= |s.store[s.threads[t].at.ref].bindings|
    ensures LedgerStep(s, StepReleasing(yaml, s, t, s.threads[t].at.ref, s.threads[t].at.next))
  {
    hide PortsOf, PlannedStreams, PortInv, DistinctPorts;
    var ref := s.threads[t].at.ref;
    var s' := StepReleasing(yaml, s, t, ref, s.threads[t].at.next);
    AllReleased(s, ref);
    ListCleared(s, s', t, ref);
  }

  lemma AllReleased(s: State, ref: Ref)
    requires PortInv(s) && ref in s.store && s.store[ref].released >= |s.store[ref].bindings|
    ensures StillHeld(s.store[ref]) == [] && InRange(s)
  {
    hide PortsOf;
  }

  /** The end of the release loop clears a list of which nothing is held any more. */
  lemma ListCleared(s: State, s': State, t: ThreadId, ref: Ref)
    requires InRange(s) && ref in s.store && StillHeld(s.store[ref]) == [] && IsWorking(s, t) && s.threads[t].at.Releasing?
    requires ref in s'.store && s'.store == s.store[ref := s'.store[ref]]
    requires s'.store[ref].bindings == [] && s'.store[ref].released == 0
    requires t in s'.threads && s'.threads == s.threads[t := s'.threads[t]] && BuiltBy(s'.threads[t]) == []
    requires s'.ports == s.ports && s'.leaked == s.leaked
    ensures LedgerStep(s, s')
  {
    assert SameLedger(s, s');
  }

  lemma LoadingLedger(yaml: Yaml, s: State, t: ThreadId, answer: Answer)
    requires PortInv(s) && IsWorking(s, t) && s.threads[t].at.Loading? && s.threads[t].at.ref in s.store
    requires Vacant(s.store[s.threads[t].at.ref])
    ensures LedgerStep(s, StepLoading(yaml, s, t, s.threads[t].at.ref, s.threads[t].at.built, answer))
  {
    hide PortsOf, LoadedGraph;
    var ref := s.threads[t].at.ref;
    var s' := StepLoading(yaml, s, t, ref, s.threads[t].at.built, answer);
    if s'.threads[t].at.Undoing? {
      assert SameLedger(s, s');
    } else {
      assert HandsOver(s, s', t, ref);
    }
  }

  lemma UndoingLedger(yaml: Yaml, s: State, t: ThreadId)
    requires PortInv(s) && IsWorking(s, t) && s.threads[t].at.Undoing?
    ensures LedgerStep(s, StepUndoing(s, t, s.threads[t].at.ref, s.threads[t].at.built))
  {
    hide PortsOf;
    var s' := StepUndoing(s, t, s.threads[t].at.ref, s.threads[t].at.built);
    if s.threads[t].at.built == [] {
      assert SameLedger(s, s');
    } else {
      assert GivesBack(s, s', ThreadOwner(t));
    }
  }

  /** Quiet steps change no list, in a body or outside one. */
  lemma QuietLedger(s: State, s': State, t: ThreadId)
    requires PortInv(s) && Quiet(s, s', t) && Owned(s, ThreadOwner(t)) == []
    ensures LedgerStep(s, s')
  {
    hide PortsOf;
    assert BuiltBy(s'.threads[t]) == [];
    assert SameLedger(s, s');
  }

  lemma OnceLedger(yaml: Yaml, s: State, t: ThreadId, answer: Answer)
    requires PortInv(s) && Enabled(s, Advance(t, answer)) && s.threads[t].Working?
    requires s.threads[t].at.AtOnce? || s.threads[t].at.InOnce?
    ensures LedgerStep(s, StepWorking(yaml, s, t, answer))
  {
    hide PortsOf, StepBetween, StepFetched, StepEntered, StepReleasing, StepAllocating,
         StepLoading, StepUndoing, StepPrepared, StepSchedulerStarting, StepSchedulerStopping, StepTorndown,
         StepErasing, StepRaised;
    assert SameLedger(s, StepWorking(yaml, s, t, answer));
  }

  lemma RefsAreOld(yaml: Yaml, s: State)
    requires Inv(yaml, s)
    ensures forall ref :: ref in s.store ==> ref < s.nextRef
  {
    hide ServiceInv, ThreadInv, LockInv, ResourcesOk;
  }

  lemma WorkingLedger(yaml: Yaml, s: State, t: ThreadId, answer: Answer)
    requires Inv(yaml, s) && PortInv(s) && Enabled(s, Advance(t, answer)) && s.threads[t].Working?
    ensures LedgerStep(s, StepWorking(yaml, s, t, answer))
  {
    hide Inv, PortInv, LedgerStep, StepBetween, StepFetched, StepEntered, StepAtOnce, StepInOnce, StepReleasing, StepAllocating, StepLoading,
         StepUndoing, StepPrepared, StepSchedulerStarting, StepSchedulerStopping, StepTorndown, StepErasing, StepRaised;
    if Resting(s.threads[t].at) {
      RefsAreOld(yaml, s);
      RestingIsQuiet(yaml, s, t, answer);
      hide Quiet;
      QuietLedger(s, StepWorking(yaml, s, t, answer), t);
      return;
    }
    match s.threads[t].at {
      case AtOnce(_) => OnceLedger(yaml, s, t, answer);
      case InOnce(_) => OnceLedger(yaml, s, t, answer);
      case Releasing(_, _) => ReleasingLedger(yaml, s, t);
      case Allocating(_, _, _) => AllocatingLedger(yaml, s, t, answer);
      case Loading(ref, _) =>
        WhileInside(yaml, s, t);
        assert Inside(yaml, s, t, ref);
        LoadingLedger(yaml, s, t, answer);
      case Undoing(_, _) => UndoingLedger(yaml, s, t);
    }
  }

  /** Every step of the lifecycle does one of the five things to the ledger. */
  lemma StepLedger(yaml: Yaml, s: State, event: Event)
    requires Inv(yaml, s) && PortInv(s) && Enabled(s, event)
    ensures LedgerStep(s, Step(yaml, s, event))
  {
    hide Inv, PortInv, LedgerStep, StepReading, StepWorking;
    var s' := Step(yaml, s, event);
    match event {
      case CreateSession(session) => CreateLedger(s, session);
      case Begin(t, operation, id) =>
        BeginningIsQuiet(s, s', t);
        QuietLedger(s, s', t);
      case BeginRead(t, read, id) =>
        BeginningIsQuiet(s, s', t);
        QuietLedger(s, s', t);
      case Advance(t, answer) =>
        if s.threads[t].Working? {
          WorkingLedger(yaml, s, t, answer);
        } else {
          ReadingIsQuiet(s, t);
          QuietLedger(s, s', t);
        }
    }
  }

  lemma CreateLedger(s: State, session: Session)
    requires PortInv(s)
    ensures LedgerStep(s, s.(service := Created(s.service, session)))
  {
    hide PortsOf;
    assert SameLedger(s, s.(service := Created(s.service, session)));
  }

  lemma InitPorts()
    ensures PortInv(INIT)
  {
  }

  lemma {:induction false} RunPorts(yaml: Yaml, states: seq<State>, events: seq<Event>, i: nat)
    requires IsRun(yaml, states, events) && i < |states|
    ensures PortInv(states[i])
  {
    hide Inv, PortInv, Step, LedgerStep;
    if i == 0 {
      InitPorts();
    } else {
      RunPorts(yaml, states, events, i - 1);
      RunKeeps(yaml, states, events, i - 1);
      StepLedger(yaml, states[i - 1], events[i - 1]);
      LedgerStepKeeps(states[i - 1], states[i]);
    }
  }
}
