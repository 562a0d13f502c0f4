/** The inductive invariant of the lifecycle, and its preservation by every step. */
module LifecycleInvariant {
  import opened Common
  import opened Pmt
  import opened Sessions
  import opened SessionStreams
  import opened StreamBindings
  import opened SessionServices
  import opened FlowGraphs
  import opened Lifecycle

  // ----- what is true of one session's resources -----

  /** Nothing runs and nothing is held. */
  predicate Vacant(resources: Resources) {
    resources.execution.None? && resources.bindings == [] && resources.released == 0 && resources.phase.Idle?
  }

  /** Every binding is the one made for its plan and its port. */
  predicate AsAllocated(bindings: seq<StreamBinding>) {
    forall k :: 0 <= k < |bindings| ==> bindings[k] == BindStream(bindings[k].plan, bindings[k].internal.port)
  }

  /** An execution serves the stored graph: its bindings follow the plan and its graph has their endpoints. */
  predicate Serves(yaml: Yaml, session: Session, resources: Resources) {
    resources.execution.Some? ==>
      && ContractErrorOf(yaml, session).None?
      && PlansOf(resources.bindings) == PlannedStreams(yaml, session)
      && LoadedGraph(yaml, session.grcContent, resources.bindings) == Ok(resources.execution.value.graph)
      && AsAllocated(resources.bindings)
  }

  /** What holds of resources whenever no body is half way through changing them. */
  predicate Settled(yaml: Yaml, session: Session, resources: Resources) {
    && resources.released == 0
    && !resources.phase.Stopping?
    && (resources.execution.None? ==> Vacant(resources))
    && (resources.phase.Running? ==> IsLive(resources))
    && Serves(yaml, session, resources)
  }

  // ----- what is true of one thread -----

  function LastCall(operation: Operation): RuntimeCall {
    match operation
    case Stop => StopCall
    case Remove => DestroyCall
    case _ => StartCall
  }

  predicate Starts(call: RuntimeCall) {
    call.PrepareCall? || call.StartCall?
  }

  /** The session mutex a thread is inside of. */
  function Holds(th: Thread): Option<Ref> {
    match th
    case Done(_) => None
    case Reading(_, _, place) => if place.ReadEntered? then Some(place.ref) else None
    case Working(_, _, _, at, _) =>
      if at.Between? || at.Raised? || at.Fetched? || at.Erasing? then None else Some(at.ref)
  }

  /** Positions at which the session's resources are in an intermediate state. */
  predicate MidBody(th: Thread) {
    && th.Working?
    && (|| th.at.SchedulerStarting? || th.at.SchedulerStopping?
        || (th.at.Releasing? && th.at.next.ThenDropExecution?))
  }

  /**
   * What a position of a lifecycle operation says about the resources it points to, and about the
   * ports handed back since the current runtime call took the session's mutex.
   */
  predicate PlaceOk(yaml: Yaml, session: Session, call: RuntimeCall, at: Position, receipt: Receipt, resources: Resources) {
    match at
    case Between => true
    case Raised => true
    case Fetched(_) => true
    case Entered(_) => receipt == Receipt(PortsOf(resources.bindings), {})
    case AtOnce(_) => Starts(call) && Vacant(resources) && receipt.freed == {} && ContractErrorOf(yaml, session).None?
    case InOnce(_) => Starts(call) && Vacant(resources) && receipt.freed == {} && ContractErrorOf(yaml, session).None?
    case Releasing(_, next) =>
      (match next
       case ThenAllocate =>
         Starts(call) && Vacant(resources) && receipt.freed == {} && ContractErrorOf(yaml, session).None?
       case ThenIdle => !Starts(call) && Vacant(resources) && receipt.freed == receipt.held
       case ThenDropExecution =>
         && !Starts(call) && resources.execution.Some? && !resources.execution.value.running && resources.phase.Stopping?
         && resources.released <= |resources.bindings|
         && receipt == Receipt(PortsOf(resources.bindings), PortsOf(resources.bindings[..resources.released]))
       case ThenErase => call.DestroyCall? && Vacant(resources) && receipt.freed == receipt.held)
    case Allocating(_, built, todo) =>
      && Starts(call) && Vacant(resources) && receipt.freed == {}
      && PlansOf(built) + todo == PlannedStreams(yaml, session) && AsAllocated(built)
      && ContractErrorOf(yaml, session).None?
    case Loading(_, built) =>
      && Starts(call) && Vacant(resources) && receipt.freed == {}
      && PlansOf(built) == PlannedStreams(yaml, session) && AsAllocated(built)
      && ContractErrorOf(yaml, session).None?
    case Undoing(_, _) => Starts(call) && Vacant(resources) && receipt.freed == {}
    case Prepared(_) => Starts(call) && resources.execution.Some? && receipt.freed == {}
    case SchedulerStarting(_) =>
      && call.StartCall? && resources.execution.Some? && resources.phase.Starting? && receipt.freed == {}
      && resources.released == 0 && Serves(yaml, session, resources)
    case SchedulerStopping(_) =>
      && !Starts(call) && resources.execution.Some? && resources.phase.Stopping? && resources.execution.value.running
      && receipt == Receipt(PortsOf(resources.bindings), {})
      && resources.released == 0 && Serves(yaml, session, resources)
    case Torndown(_) => !Starts(call) && Vacant(resources) && receipt.freed == receipt.held
    case Erasing(_) => call.DestroyCall? && Vacant(resources) && receipt.freed == receipt.held
  }

  /** What the runtime calls of an operation have established once all have returned. */
  predicate CallsDone(s: State, operation: Operation, id: SessionId) {
    match LastCall(operation)
    case StartCall => id in s.table && s.table[id] in s.store && IsLive(s.store[s.table[id]])
    case StopCall => id in s.table ==> s.table[id] in s.store && Vacant(s.store[s.table[id]])
    case DestroyCall => id !in s.table
    case PrepareCall => true
  }

  predicate WorkingOk(yaml: Yaml, s: State, th: Thread)
    requires th.Working?
  {
    var id := th.session.id;
    && id in s.service.sessions && s.service.sessions[id] == th.session
    && id in s.service.phases && s.service.phases[id] == ClaimPhase(th.operation)
    && (th.calls != [] ==> th.calls[|th.calls| - 1] == LastCall(th.operation))
    && (th.at.Between? && th.calls == [] ==> CallsDone(s, th.operation, id))
    && (!th.at.Between? && !th.at.Raised? ==>
          && id in s.table && s.table[id] == th.at.ref && th.at.ref in s.store
          && th.calls != []
          && PlaceOk(yaml, th.session, th.calls[0], th.at, th.receipt, s.store[th.at.ref]))
    && (th.at.Raised? ==> th.receipt.freed == {})
  }

  predicate ThreadOk(yaml: Yaml, s: State, th: Thread) {
    match th
    case Done(_) => true
    case Reading(_, session, place) =>
      !place.Looking? ==> place.ref in s.store && s.store[place.ref].sessionId == session.id
    case Working(_, _, _, _, _) => WorkingOk(yaml, s, th)
  }

  // ----- what is true of one session -----

  predicate PublicStateAgrees(session: Session, phase: LifecyclePhase) {
    match phase
    case Idle => session.state.Stopped?
    case Running => session.state.Running?
    case Failed => session.state.Error?
    case _ => true
  }

  predicate RuntimeAgrees(s: State, id: SessionId, phase: LifecyclePhase) {
    match phase
    case Running => id in s.table && s.table[id] in s.store && IsLive(s.store[s.table[id]])
    case Idle => id in s.table ==> s.table[id] in s.store && Vacant(s.store[s.table[id]])
    case _ => true
  }

  predicate SessionOk(s: State, id: SessionId)
    requires id in s.service.sessions
  {
    var session := s.service.sessions[id];
    && session.id == id
    && (session.lastError.Some? <==> session.state.Error?)
    && id in s.service.phases
    && PublicStateAgrees(session, s.service.phases[id])
    && RuntimeAgrees(s, id, s.service.phases[id])
  }

  predicate Operates(s: State, t: ThreadId, id: SessionId) {
    IsWorking(s, t) && s.threads[t].session.id == id
  }

  predicate LockedBy(s: State, ref: Ref, t: ThreadId) {
    ref in s.locks && s.locks[ref] == t
  }

  /** Resources are vacant, or they belong to a stored session and are settled unless a body is at work on them. */
  ghost predicate ResourcesOk(yaml: Yaml, s: State, ref: Ref)
    requires ref in s.store
  {
    var id := s.store[ref].sessionId;
    || Vacant(s.store[ref])
    || (&& id in s.table && s.table[id] == ref && id in s.service.sessions
        && (|| Settled(yaml, s.service.sessions[id], s.store[ref])
            || (exists t :: LockedBy(s, ref, t) && t in s.threads && MidBody(s.threads[t]))))
  }

  // ----- the invariant -----

  /** Service maps: same ids, consistent sessions, a busy phase exactly while some thread operates. */
  ghost predicate ServiceInv(s: State) {
    && s.service.phases.Keys == s.service.sessions.Keys
    && (forall id :: id in s.service.sessions ==> SessionOk(s, id))
    && (forall id :: id in s.service.sessions && Busy(s.service.phases[id]) ==> exists t :: Operates(s, t, id))
  }

  ghost predicate ThreadInv(yaml: Yaml, s: State) {
    && (forall t :: t in s.threads ==> ThreadOk(yaml, s, s.threads[t]))
    && (forall t, u :: IsWorking(s, t) && IsWorking(s, u) && s.threads[t].session.id == s.threads[u].session.id ==> t == u)
  }

  /** Every object of the store is settled unless a thread is in the middle of a body; only table objects hold anything. */
  ghost predicate StoreInv(yaml: Yaml, s: State) {
    && (forall id :: id in s.table ==>
          && id in s.service.sessions
          && s.table[id] in s.store && s.store[s.table[id]].sessionId == id)
    && (forall ref :: ref in s.store ==> ref < s.nextRef)
    && (forall ref :: ref in s.store ==> ResourcesOk(yaml, s, ref))
  }

  ghost predicate LockInv(s: State) {
    && (forall ref :: ref in s.locks ==> s.locks[ref] in s.threads)
    && (forall ref: Ref, t :: t in s.threads ==> (LockedBy(s, ref, t) <==> Holds(s.threads[t]) == Some(ref)))
  }

  ghost predicate Inv(yaml: Yaml, s: State) {
    ServiceInv(s) && ThreadInv(yaml, s) && StoreInv(yaml, s) && LockInv(s)
  }

  lemma InitInv(yaml: Yaml)
    ensures Inv(yaml, INIT)
  {
  }

  // ----- one step changes one session -----

  /** A step of thread `t` on session `id` leaves every other session, its resources and all other threads alone. */
  ghost predicate OnlyTouches(s: State, s': State, t: ThreadId, id: SessionId) {
    && (forall other :: other != id ==>
          && (other in s.service.sessions <==> other in s'.service.sessions)
          && (other in s.service.sessions ==> s.service.sessions[other] == s'.service.sessions[other])
          && (other in s.service.phases <==> other in s'.service.phases)
          && (other in s.service.phases ==> s.service.phases[other] == s'.service.phases[other])
          && (other in s.table <==> other in s'.table)
          && (other in s.table ==> s.table[other] == s'.table[other]))
    && s.nextRef <= s'.nextRef
    && (forall ref :: ref in s.store ==> ref in s'.store && s'.store[ref].sessionId == s.store[ref].sessionId)
    && (forall ref :: ref in s.store && s.store[ref].sessionId != id ==> s'.store[ref] == s.store[ref])
    && (forall ref :: ref in s'.store && ref !in s.store ==> ref < s'.nextRef && s'.store[ref].sessionId == id)
    && s'.threads.Keys == s.threads.Keys + {t}
    && (forall u :: u in s.threads && u != t ==> s'.threads[u] == s.threads[u])
    && (IsWorking(s, t) ==> s.threads[t].session.id == id)
    && (IsWorking(s', t) ==> s'.threads[t].session.id == id)
    && (forall ref, u :: u != t ==> (LockedBy(s', ref, u) <==> LockedBy(s, ref, u)))
  }

  /** What a step must show about the session and the thread it moves. */
  ghost predicate OwnPart(yaml: Yaml, s: State, s': State, t: ThreadId, id: SessionId) {
    && t in s'.threads
    && (id in s'.service.phases <==> id in s'.service.sessions)
    && (id in s'.service.sessions ==> SessionOk(s', id) && (Busy(s'.service.phases[id]) ==> exists u :: Operates(s', u, id)))
    && ThreadOk(yaml, s', s'.threads[t])
    && (forall u :: u != t && Operates(s, u, id) ==> !IsWorking(s', t) && WorkingOk(yaml, s', s.threads[u]))
    && (id in s'.table ==> id in s'.service.sessions && s'.table[id] in s'.store && s'.store[s'.table[id]].sessionId == id)
    && (forall ref :: ref in s'.store && s'.store[ref].sessionId == id ==> ResourcesOk(yaml, s', ref))
    && (forall ref: Ref :: LockedBy(s', ref, t) <==> Holds(s'.threads[t]) == Some(ref))
  }

  lemma KeepsService(yaml: Yaml, s: State, s': State, t: ThreadId, id: SessionId)
    requires ServiceInv(s) && StoreInv(yaml, s) && OnlyTouches(s, s', t, id) && OwnPart(yaml, s, s', t, id)
    ensures ServiceInv(s')
  {
    hide ResourcesOk, ThreadOk, Settled, WorkingOk, Vacant, IsLive, PublicStateAgrees;
    assert forall other :: other in s'.service.phases <==> other in s'.service.sessions;
    forall other | other in s'.service.sessions ensures SessionOk(s', other) {
      if other != id {
        assert SessionOk(s, other);
      }
    }
    forall other | other in s'.service.sessions && Busy(s'.service.phases[other]) ensures exists u :: Operates(s', u, other) {
      if other != id {
        var u :| Operates(s, u, other);
        assert Operates(s', u, other);
      }
    }
  }

  lemma OtherThreadKeeps(yaml: Yaml, s: State, s': State, t: ThreadId, id: SessionId, u: ThreadId)
    requires Inv(yaml, s) && OnlyTouches(s, s', t, id) && OwnPart(yaml, s, s', t, id)
    requires u in s.threads && u != t
    ensures ThreadOk(yaml, s', s'.threads[u])
  {
    hide ResourcesOk, Settled, PlaceOk, Vacant, IsLive, SessionOk, ServiceInv, LockInv, Holds;
    assert ThreadOk(yaml, s, s.threads[u]);
  }

  lemma KeepsThreads(yaml: Yaml, s: State, s': State, t: ThreadId, id: SessionId)
    requires Inv(yaml, s) && OnlyTouches(s, s', t, id) && OwnPart(yaml, s, s', t, id)
    ensures ThreadInv(yaml, s')
  {
    hide ResourcesOk, SessionOk, ServiceInv, StoreInv, LockInv, ThreadOk, WorkingOk, Holds;
    forall u | u in s'.threads ensures ThreadOk(yaml, s', s'.threads[u]) {
      if u != t {
        OtherThreadKeeps(yaml, s, s', t, id, u);
      }
    }
  }

  /** A thread in the middle of a body works on resources of its own session. */
  lemma MidBodyIsOnItsOwn(yaml: Yaml, s: State, ref: Ref, u: ThreadId)
    requires Inv(yaml, s) && ref in s.store && LockedBy(s, ref, u) && u in s.threads && MidBody(s.threads[u])
    ensures IsWorking(s, u) && s.threads[u].session.id == s.store[ref].sessionId
  {
    hide Settled, PlaceOk, Vacant, IsLive, SessionOk, ServiceInv, CallsDone, ResourcesOk;
    assert ThreadOk(yaml, s, s.threads[u]);
  }

  lemma KeepsStore(yaml: Yaml, s: State, s': State, t: ThreadId, id: SessionId)
    requires Inv(yaml, s) && OnlyTouches(s, s', t, id) && OwnPart(yaml, s, s', t, id)
    ensures StoreInv(yaml, s')
  {
    hide Settled, PlaceOk, Vacant, IsLive, SessionOk, ThreadOk, WorkingOk, Holds, ServiceInv, ThreadInv, LockInv, MidBody;
    forall ref | ref in s'.store ensures ResourcesOk(yaml, s', ref) {
      if s'.store[ref].sessionId != id {
        assert ref in s.store && ResourcesOk(yaml, s, ref);
        if exists u :: LockedBy(s, ref, u) && u in s.threads && MidBody(s.threads[u]) {
          var u :| LockedBy(s, ref, u) && u in s.threads && MidBody(s.threads[u]);
          MidBodyIsOnItsOwn(yaml, s, ref, u);
          assert u != t ==> LockedBy(s', ref, u);
        }
      }
    }
  }

  lemma KeepsLocks(yaml: Yaml, s: State, s': State, t: ThreadId, id: SessionId)
    requires LockInv(s) && OnlyTouches(s, s', t, id) && OwnPart(yaml, s, s', t, id)
    ensures LockInv(s')
  {
    hide Settled, PlaceOk, Vacant, IsLive, SessionOk, ResourcesOk, ThreadOk, WorkingOk, Holds;
    forall ref | ref in s'.locks ensures s'.locks[ref] in s'.threads {
      assert LockedBy(s', ref, s'.locks[ref]);
    }
  }

  lemma OwnStepKeeps(yaml: Yaml, s: State, s': State, t: ThreadId, id: SessionId)
    requires Inv(yaml, s) && OnlyTouches(s, s', t, id) && OwnPart(yaml, s, s', t, id)
    ensures Inv(yaml, s')
  {
    KeepsService(yaml, s, s', t, id);
    KeepsThreads(yaml, s, s', t, id);
    KeepsStore(yaml, s, s', t, id);
    KeepsLocks(yaml, s, s', t, id);
  }

  // ----- steps inside a session's mutex -----

  /**
   * A step of a body: the thread moves, its own resources change, and the session's mutex is held
   * afterwards exactly if the new position says so.
   */
  ghost predicate BodyStep(s: State, s': State, t: ThreadId, ref: Ref, resources: Resources, th: Thread) {
    && IsWorking(s, t) && th.Working?
    && th.session == s.threads[t].session && th.operation == s.threads[t].operation
    && ref in s.store && resources.sessionId == s.store[ref].sessionId
    && (LockedBy(s, ref, t) || ref !in s.locks)
    && (Holds(th) == None || Holds(th) == Some(ref))
    && s'.service == s.service && s'.table == s.table && s'.nextRef == s.nextRef
    && s'.threads == s.threads[t := th]
    && (s'.store == s.store[ref := resources] || (s'.store == s.store && resources == s.store[ref]))
    && s'.locks == if Holds(th).None? then s.locks - {ref} else if LockedBy(s, ref, t) then s.locks else s.locks[ref := t]
  }

  lemma BodyStepTouches(s: State, s': State, t: ThreadId, ref: Ref, resources: Resources, th: Thread)
    requires BodyStep(s, s', t, ref, resources, th)
    requires s.store[ref].sessionId == th.session.id
    ensures OnlyTouches(s, s', t, th.session.id)
    ensures forall other: Ref :: other != ref ==> (LockedBy(s', other, t) <==> LockedBy(s, other, t))
    ensures LockedBy(s', ref, t) <==> Holds(th) == Some(ref)
  {
  }

  lemma BodyResources(yaml: Yaml, s: State, s': State, t: ThreadId, ref: Ref, resources: Resources, th: Thread, other: Ref)
    requires Inv(yaml, s) && BodyStep(s, s', t, ref, resources, th)
    requires s.threads[t].session.id in s.table && s.table[s.threads[t].session.id] == ref
    requires LockedBy(s', ref, t) <==> Holds(th) == Some(ref)
    requires WorkingOk(yaml, s', th)
    requires Vacant(resources) || Settled(yaml, th.session, resources) || (MidBody(th) && Holds(th) == Some(ref))
    requires other in s'.store && s'.store[other].sessionId == th.session.id
    ensures ResourcesOk(yaml, s', other)
  {
    hide Settled, PlaceOk, Vacant, CallsDone, MidBody, Holds, ServiceInv, ThreadInv, LockInv;
    if other != ref {
      assert ResourcesOk(yaml, s, other);
    }
  }

  /** The stored session and its phase are as they were, and the thread still operates on it. */
  lemma BodySession(yaml: Yaml, s: State, s': State, t: ThreadId, ref: Ref, resources: Resources, th: Thread)
    requires Inv(yaml, s) && BodyStep(s, s', t, ref, resources, th)
    ensures var id := th.session.id; SessionOk(s', id) && Operates(s', t, id)
  {
    assert ThreadOk(yaml, s, s.threads[t]);
    hide Settled, PlaceOk, Vacant, ResourcesOk, CallsDone, MidBody, StoreInv, LockInv, Holds, WorkingOk;
    assert SessionOk(s, th.session.id);
  }

  lemma BodyStepOwns(yaml: Yaml, s: State, s': State, t: ThreadId, ref: Ref, resources: Resources, th: Thread)
    requires Inv(yaml, s) && BodyStep(s, s', t, ref, resources, th)
    requires s.threads[t].session.id in s.table && s.table[s.threads[t].session.id] == ref
    requires forall other: Ref :: other != ref ==> (LockedBy(s', other, t) <==> LockedBy(s, other, t))
    requires LockedBy(s', ref, t) <==> Holds(th) == Some(ref)
    requires WorkingOk(yaml, s', th)
    requires Vacant(resources) || Settled(yaml, th.session, resources) || (MidBody(th) && Holds(th) == Some(ref))
    ensures OwnPart(yaml, s, s', t, th.session.id)
  {
    var id := th.session.id;
    assert ThreadOk(yaml, s, s.threads[t]);
    BodySession(yaml, s, s', t, ref, resources, th);
    hide Settled, PlaceOk, Vacant, ResourcesOk, CallsDone, MidBody, StoreInv, SessionOk, IsLive, ServiceInv;
    forall other | other in s'.store && s'.store[other].sessionId == id ensures ResourcesOk(yaml, s', other) {
      BodyResources(yaml, s, s', t, ref, resources, th, other);
    }
    forall other: Ref ensures LockedBy(s', other, t) <==> Holds(th) == Some(other) {
      if other != ref && LockedBy(s, other, t) {
        assert Holds(s.threads[t]) == Some(other);
      }
    }
  }

  lemma BodyStepKeeps(yaml: Yaml, s: State, s': State, t: ThreadId, ref: Ref, resources: Resources, th: Thread)
    requires Inv(yaml, s) && BodyStep(s, s', t, ref, resources, th)
    requires s.threads[t].session.id in s.table && s.table[s.threads[t].session.id] == ref
    requires WorkingOk(yaml, s', th)
    requires Vacant(resources) || Settled(yaml, th.session, resources) || (MidBody(th) && Holds(th) == Some(ref))
    ensures Inv(yaml, s')
  {
    BodyStepTouches(s, s', t, ref, resources, th);
    BodyStepOwns(yaml, s, s', t, ref, resources, th);
    OwnStepKeeps(yaml, s, s', t, th.session.id);
  }

  /** A thread inside, or about to enter, its session's mutex, and what it knows of the resources there. */
  ghost predicate Inside(yaml: Yaml, s: State, t: ThreadId, ref: Ref) {
    && IsWorking(s, t) && WorkingOk(yaml, s, s.threads[t])
    && !s.threads[t].at.Between? && !s.threads[t].at.Raised? && s.threads[t].at.ref == ref
    && (LockedBy(s, ref, t) <==> Holds(s.threads[t]).Some?)
    && s.store[ref].sessionId == s.threads[t].session.id
    && (ref !in s.locks || LockedBy(s, ref, t) ==>
          Vacant(s.store[ref]) || Settled(yaml, s.threads[t].session, s.store[ref]) || MidBody(s.threads[t]))
  }

  lemma WhileInside(yaml: Yaml, s: State, t: ThreadId)
    requires Inv(yaml, s) && IsWorking(s, t) && !s.threads[t].at.Between? && !s.threads[t].at.Raised?
    ensures Inside(yaml, s, t, s.threads[t].at.ref)
  {
    hide PlaceOk, Settled, Vacant, SessionOk;
    assert ThreadOk(yaml, s, s.threads[t]);
    var ref := s.threads[t].at.ref;
    assert ResourcesOk(yaml, s, ref);
  }

  /** A body step between two states, with its proof obligations. */
  ghost predicate GoodStep(yaml: Yaml, s: State, s': State, t: ThreadId, ref: Ref) {
    && IsWorking(s', t) && ref in s'.store
    && BodyStep(s, s', t, ref, s'.store[ref], s'.threads[t])
    && WorkingOk(yaml, s', s'.threads[t])
    && (|| Vacant(s'.store[ref])
        || Settled(yaml, s'.threads[t].session, s'.store[ref])
        || (MidBody(s'.threads[t]) && Holds(s'.threads[t]) == Some(ref)))
  }

  lemma GoodStepKeeps(yaml: Yaml, s: State, s': State, t: ThreadId, ref: Ref)
    requires Inv(yaml, s) && Inside(yaml, s, t, ref) && GoodStep(yaml, s, s', t, ref)
    ensures Inv(yaml, s')
  {
    BodyStepKeeps(yaml, s, s', t, ref, s'.store[ref], s'.threads[t]);
  }

  lemma FetchedStep(yaml: Yaml, s: State, t: ThreadId, ref: Ref)
    requires Inside(yaml, s, t, ref) && s.threads[t].at.Fetched? && ref !in s.locks
    ensures GoodStep(yaml, s, StepFetched(s, t, ref), t, ref)
  {
  }

  lemma AtOnceStep(yaml: Yaml, s: State, t: ThreadId, ref: Ref)
    requires Inside(yaml, s, t, ref) && s.threads[t].at.AtOnce? && !s.once.CalledBy?
    ensures GoodStep(yaml, s, StepAtOnce(s, t, ref), t, ref)
  {
    hide ContractErrorOf, PlannedStreams, LoadedGraph, PlansOf, PortsOf, AsAllocated;
  }

  lemma InOnceStep(yaml: Yaml, s: State, t: ThreadId, ref: Ref, answer: Answer)
    requires Inside(yaml, s, t, ref) && s.threads[t].at.InOnce?
    ensures GoodStep(yaml, s, StepInOnce(s, t, ref, answer), t, ref)
  {
    hide ContractErrorOf, PlannedStreams, LoadedGraph, PlansOf, PortsOf, AsAllocated;
  }

  lemma EnteredToStart(yaml: Yaml, s: State, t: ThreadId, ref: Ref)
    requires Inside(yaml, s, t, ref) && s.threads[t].at.Entered? && Starts(s.threads[t].calls[0])
    ensures GoodStep(yaml, s, StepEntered(yaml, s, t, ref), t, ref)
  {
    hide ContractErrorOf, PlannedStreams, LoadedGraph, PlansOf, PortsOf, Program;
    NoBindingsNoPorts();
  }

  lemma EnteredToStop(yaml: Yaml, s: State, t: ThreadId, ref: Ref)
    requires Inside(yaml, s, t, ref) && s.threads[t].at.Entered? && !Starts(s.threads[t].calls[0])
    ensures GoodStep(yaml, s, StepEntered(yaml, s, t, ref), t, ref)
  {
    hide ContractErrorOf, PlannedStreams, LoadedGraph, PlansOf, PortsOf, Program;
    NoBindingsNoPorts();
  }

  lemma SchedulerStoppingStep(yaml: Yaml, s: State, t: ThreadId, ref: Ref, answer: Answer)
    requires Inside(yaml, s, t, ref) && s.threads[t].at.SchedulerStopping?
    ensures GoodStep(yaml, s, StepSchedulerStopping(s, t, ref, answer), t, ref)
  {
    hide ContractErrorOf, PlannedStreams, LoadedGraph, PlansOf, PortsOf, AsAllocated;
    assert s.store[ref].bindings[..0] == [];
    NoBindingsNoPorts();
  }

  lemma ReleaseOneStep(yaml: Yaml, s: State, t: ThreadId, ref: Ref)
    requires Inside(yaml, s, t, ref) && s.threads[t].at.Releasing? && s.threads[t].at.next.ThenDropExecution?
    requires s.store[ref].released < |s.store[ref].bindings|
    ensures GoodStep(yaml, s, StepReleasing(yaml, s, t, ref, s.threads[t].at.next), t, ref)
  {
    hide PortsOf, LoadedGraph, PlannedStreams, PlansOf, ContractErrorOf, AsAllocated, Serves;
    PortsOfPrefix(s.store[ref].bindings, s.store[ref].released);
  }

  lemma ReleasingStep(yaml: Yaml, s: State, t: ThreadId, ref: Ref)
    requires Inside(yaml, s, t, ref) && s.threads[t].at.Releasing? && !s.threads[t].at.next.ThenErase?
    ensures GoodStep(yaml, s, StepReleasing(yaml, s, t, ref, s.threads[t].at.next), t, ref)
  {
    if s.store[ref].released < |s.store[ref].bindings| {
      hide GoodStep, StepReleasing, Settled;
      ReleaseOneStep(yaml, s, t, ref);
    } else {
      ReleaseEndStep(yaml, s, t, ref);
    }
  }

  lemma ReleaseEndStep(yaml: Yaml, s: State, t: ThreadId, ref: Ref)
    requires Inside(yaml, s, t, ref) && s.threads[t].at.Releasing? && !s.threads[t].at.next.ThenErase?
    requires s.store[ref].released >= |s.store[ref].bindings|
    ensures GoodStep(yaml, s, StepReleasing(yaml, s, t, ref, s.threads[t].at.next), t, ref)
  {
    hide PortsOf, LoadedGraph, PlannedStreams, PlansOf, ContractErrorOf, Settled, Serves;
    assert s.store[ref].bindings[..|s.store[ref].bindings|] == s.store[ref].bindings;
    NoBindingsNoPorts();
    assert PlansOf([]) == [] by { NothingPlanned(); }
  }

  lemma NothingPlanned()
    ensures PlansOf([]) == [] && AsAllocated([])
  {
  }

  lemma ReleasedStep(yaml: Yaml, s: State, t: ThreadId, ref: Ref)
    requires Inside(yaml, s, t, ref) && s.threads[t].at.Releasing? && s.threads[t].at.next.ThenErase?
    ensures GoodStep(yaml, s, StepReleasing(yaml, s, t, ref, ThenErase), t, ref)
  {
  }

  /** A derived plan already says that its streams are ready; binding them does not change it. */
  lemma PlannedStreamsAreReady(yaml: Yaml, session: Session)
    ensures forall i :: 0 <= i < |PlannedStreams(yaml, session)| ==> PlannedStreams(yaml, session)[i].ready
  {
    hide ContractErrorOf, DeclaredIn, FirstError;
  }

  lemma BindingKeepsPlan(built: seq<StreamBinding>, plan: StreamPlan, port: Port)
    requires plan.ready
    ensures PlansOf(built + [BindStream(plan, port)]) == PlansOf(built) + [plan]
    ensures AsAllocated(built) ==> AsAllocated(built + [BindStream(plan, port)])
  {
  }

  lemma AllocatingStep(yaml: Yaml, s: State, t: ThreadId, ref: Ref, answer: Answer)
    requires Inside(yaml, s, t, ref) && s.threads[t].at.Allocating?
    ensures GoodStep(yaml, s, StepAllocating(s, t, ref, answer), t, ref)
  {
    hide ContractErrorOf, PlannedStreams, LoadedGraph, PortsOf, FirstFree, Settled, Serves, IsLive, PlansOf, AsAllocated;
    PlannedStreamsAreReady(yaml, s.threads[t].session);
    var at := s.threads[t].at;
    if at.todo == [] {
      assert PlansOf(at.built) + [] == PlansOf(at.built);
    } else {
      var planned := PlannedStreams(yaml, s.threads[t].session);
      NextPlanned(at.built, at.todo, planned);
      if answer.Offers? && FirstFree(answer.offers, s.ports, MAX_ATTEMPTS).Some? {
        var port := FirstFree(answer.offers, s.ports, MAX_ATTEMPTS).value;
        BindingKeepsPlan(at.built, at.todo[0], port);
        assert PlansOf(at.built) + [at.todo[0]] + at.todo[1..] == planned;
      }
    }
  }

  lemma NextPlanned(built: seq<StreamBinding>, todo: seq<StreamPlan>, planned: seq<StreamPlan>)
    requires todo != [] && PlansOf(built) + todo == planned
    ensures |built| < |planned| && planned[|built|] == todo[0] && PlansOf(built) + ([todo[0]] + todo[1..]) == planned
  {
    assert [todo[0]] + todo[1..] == todo;
  }

  lemma LoadingStep(yaml: Yaml, s: State, t: ThreadId, ref: Ref, answer: Answer)
    requires Inside(yaml, s, t, ref) && s.threads[t].at.Loading?
    ensures GoodStep(yaml, s, StepLoading(yaml, s, t, ref, s.threads[t].at.built, answer), t, ref)
  {
    hide ContractErrorOf, PlannedStreams, LoadedGraph, PlansOf, PortsOf, AsAllocated;
  }

  lemma UndoingStep(yaml: Yaml, s: State, t: ThreadId, ref: Ref)
    requires Inside(yaml, s, t, ref) && s.threads[t].at.Undoing?
    ensures GoodStep(yaml, s, StepUndoing(s, t, ref, s.threads[t].at.built), t, ref)
  {
    hide ContractErrorOf, PlannedStreams, LoadedGraph, PlansOf, PortsOf, AsAllocated;
  }

  lemma PreparedStep(yaml: Yaml, s: State, t: ThreadId, ref: Ref)
    requires Inside(yaml, s, t, ref) && s.threads[t].at.Prepared?
    ensures GoodStep(yaml, s, StepPrepared(s, t, ref), t, ref)
  {
    hide ContractErrorOf, PlannedStreams, LoadedGraph, PlansOf, PortsOf, AsAllocated;
    var th := s.threads[t];
    assert WellPlaced(s, th) && PlaceOk(yaml, th.session, th.calls[0], Prepared(ref), th.receipt, s.store[ref]);
  }

  lemma SchedulerStartingStep(yaml: Yaml, s: State, t: ThreadId, ref: Ref, answer: Answer)
    requires Inside(yaml, s, t, ref) && s.threads[t].at.SchedulerStarting?
    ensures GoodStep(yaml, s, StepSchedulerStarting(s, t, ref, answer), t, ref)
  {
    hide ContractErrorOf, PlannedStreams, LoadedGraph, PlansOf, PortsOf;
  }

  lemma TorndownStep(yaml: Yaml, s: State, t: ThreadId, ref: Ref)
    requires Inside(yaml, s, t, ref) && s.threads[t].at.Torndown?
    ensures GoodStep(yaml, s, StepTorndown(s, t, ref), t, ref)
  {
    hide ContractErrorOf, PlannedStreams, LoadedGraph, PlansOf, PortsOf, AsAllocated;
  }

  // ----- steps outside a session's mutex -----

  /** Plan and loaded graph depend on the id and the stored text alone, not on the public state. */
  lemma StateDoesNotMatter(yaml: Yaml, session: Session, session': Session, resources: Resources)
    requires session.id == session'.id && session.grcContent == session'.grcContent
    ensures Serves(yaml, session, resources) == Serves(yaml, session', resources)
    ensures Settled(yaml, session, resources) == Settled(yaml, session', resources)
  {
    hide PlansFor, FirstError, Declared, LoadedGraph, PlansOf;
  }

  /** A working thread moves outside the session's mutex; the table entry of its session may come or go. */
  ghost predicate OutsideStep(s: State, s': State, t: ThreadId, id: SessionId) {
    && IsWorking(s, t) && IsWorking(s', t)
    && s.threads[t].session.id == id && s'.threads[t].session == s.threads[t].session
    && Holds(s.threads[t]) == None && Holds(s'.threads[t]) == None
    && s'.service == s.service && s'.locks == s.locks
    && s'.threads == s.threads[t := s'.threads[t]]
    && (forall other :: other != id ==>
          (other in s.table <==> other in s'.table) && (other in s.table ==> s.table[other] == s'.table[other]))
    && s.nextRef <= s'.nextRef
    && (forall ref :: ref in s.store ==> ref in s'.store && s'.store[ref] == s.store[ref])
    && (forall ref :: ref in s'.store && ref !in s.store ==>
          ref < s'.nextRef && s'.store[ref].sessionId == id && Vacant(s'.store[ref]))
  }

  lemma OutsideTouches(s: State, s': State, t: ThreadId, id: SessionId)
    requires OutsideStep(s, s', t, id)
    ensures OnlyTouches(s, s', t, id) && Operates(s', t, id)
    ensures forall ref, u :: LockedBy(s', ref, u) <==> LockedBy(s, ref, u)
  {
    hide Vacant;
  }

  lemma OutsideResources(yaml: Yaml, s: State, s': State, t: ThreadId, id: SessionId, ref: Ref)
    requires Inv(yaml, s) && OutsideStep(s, s', t, id) && ref in s'.store && s'.store[ref].sessionId == id
    requires id in s.table && (id !in s'.table || s'.table[id] != s.table[id]) ==> Vacant(s.store[s.table[id]])
    ensures ResourcesOk(yaml, s', ref)
  {
    hide Settled, Vacant, MidBody, ServiceInv, ThreadInv, LockInv, Holds;
    if ref in s.store {
      assert ResourcesOk(yaml, s, ref);
      if exists u :: LockedBy(s, ref, u) && u in s.threads && MidBody(s.threads[u]) {
        var u :| LockedBy(s, ref, u) && u in s.threads && MidBody(s.threads[u]);
        HolderIsNoOutsider(yaml, s, t, ref, u);
        assert LockedBy(s', ref, u) && s'.threads[u] == s.threads[u];
      }
    }
  }

  lemma HolderIsNoOutsider(yaml: Yaml, s: State, t: ThreadId, ref: Ref, u: ThreadId)
    requires Inv(yaml, s) && t in s.threads && Holds(s.threads[t]) == None && LockedBy(s, ref, u)
    ensures u != t
  {
    hide ServiceInv, ThreadInv, StoreInv, Holds;
  }

  lemma OutsideStepKeeps(yaml: Yaml, s: State, s': State, t: ThreadId, id: SessionId)
    requires Inv(yaml, s) && OutsideStep(s, s', t, id)
    requires WorkingOk(yaml, s', s'.threads[t])
    requires id in s'.table ==> s'.table[id] in s'.store && s'.store[s'.table[id]].sessionId == id
    requires id in s.table && (id !in s'.table || s'.table[id] != s.table[id]) ==> Vacant(s.store[s.table[id]])
    ensures Inv(yaml, s')
  {
    hide Settled, Vacant, PlaceOk, IsLive, CallsDone, ResourcesOk, OnlyTouches;
    OutsideTouches(s, s', t, id);
    forall ref | ref in s'.store && s'.store[ref].sessionId == id ensures ResourcesOk(yaml, s', ref) {
      OutsideResources(yaml, s, s', t, id, ref);
    }
    OutsideOwns(yaml, s, s', t, id);
    OwnStepKeeps(yaml, s, s', t, id);
  }

  lemma OutsideOwns(yaml: Yaml, s: State, s': State, t: ThreadId, id: SessionId)
    requires Inv(yaml, s) && OutsideStep(s, s', t, id) && WorkingOk(yaml, s', s'.threads[t]) && Operates(s', t, id)
    requires id in s'.table ==> s'.table[id] in s'.store && s'.store[s'.table[id]].sessionId == id
    requires forall ref, u :: LockedBy(s', ref, u) <==> LockedBy(s, ref, u)
    requires forall ref :: ref in s'.store && s'.store[ref].sessionId == id ==> ResourcesOk(yaml, s', ref)
    ensures OwnPart(yaml, s, s', t, id)
  {
    hide Settled, Vacant, PlaceOk, IsLive, CallsDone, ResourcesOk, StoreInv;
    assert ThreadOk(yaml, s, s.threads[t]);
    assert SessionOk(s, id) && SessionOk(s', id);
  }

  lemma ErasingKeeps(yaml: Yaml, s: State, t: ThreadId)
    requires Inv(yaml, s) && IsWorking(s, t) && s.threads[t].at.Erasing?
    ensures Inv(yaml, StepErasing(s, t, s.threads[t].at.ref))
  {
    var ref, id := s.threads[t].at.ref, s.threads[t].session.id;
    WhileInside(yaml, s, t);
    ErasingStep(yaml, s, t, ref);
    hide Inside, OutsideStep, WorkingOk, Vacant, StepErasing;
    OutsideStepKeeps(yaml, s, StepErasing(s, t, ref), t, id);
  }

  lemma ErasingStep(yaml: Yaml, s: State, t: ThreadId, ref: Ref)
    requires Inside(yaml, s, t, ref) && s.threads[t].at.Erasing?
    ensures var s', id := StepErasing(s, t, ref), s.threads[t].session.id;
      && OutsideStep(s, s', t, id) && WorkingOk(yaml, s', s'.threads[t])
      && id !in s'.table && id in s.table && s.table[id] in s.store && Vacant(s.store[s.table[id]])
  {
    hide Settled, Vacant, IsLive;
  }

  lemma BetweenStep(yaml: Yaml, s: State, t: ThreadId, id: SessionId)
    requires IsWorking(s, t) && s.threads[t].at.Between? && s.threads[t].calls != [] && s.threads[t].session.id == id
    requires WorkingOk(yaml, s, s.threads[t])
    requires id in s.table ==> s.table[id] in s.store
    requires forall ref :: ref in s.store ==> ref < s.nextRef
    ensures OutsideStep(s, StepBetween(s, t), t, id)
    ensures WorkingOk(yaml, StepBetween(s, t), StepBetween(s, t).threads[t])
    ensures id in s.table ==> StepBetween(s, t).table == s.table
    ensures id !in s.table && id in StepBetween(s, t).table ==>
        && StepBetween(s, t).table[id] in StepBetween(s, t).store
        && StepBetween(s, t).store[StepBetween(s, t).table[id]].sessionId == id
  {
    hide Settled, PlannedStreams, LoadedGraph, Conclude, IsLive, Serves;
    if id in s.table {
      FoundStep(yaml, s, t, id);
    } else if Starts(s.threads[t].calls[0]) {
      NewStep(yaml, s, t, id);
    }
  }

  lemma FoundStep(yaml: Yaml, s: State, t: ThreadId, id: SessionId)
    requires IsWorking(s, t) && s.threads[t].at.Between? && s.threads[t].calls != [] && s.threads[t].session.id == id
    requires WorkingOk(yaml, s, s.threads[t]) && id in s.table && s.table[id] in s.store
    ensures var s' := StepBetween(s, t);
      && IsWorking(s', t) && OutsideStep(s, s', t, id) && WorkingOk(yaml, s', s'.threads[t])
      && s'.table == s.table && s'.store == s.store
  {
    hide Conclude, Vacant, CallsDone;
  }

  lemma NewStep(yaml: Yaml, s: State, t: ThreadId, id: SessionId)
    requires IsWorking(s, t) && s.threads[t].at.Between? && s.threads[t].calls != [] && s.threads[t].session.id == id
    requires WorkingOk(yaml, s, s.threads[t]) && id !in s.table && Starts(s.threads[t].calls[0])
    requires forall ref :: ref in s.store ==> ref < s.nextRef
    ensures var s' := StepBetween(s, t);
      && IsWorking(s', t) && OutsideStep(s, s', t, id) && WorkingOk(yaml, s', s'.threads[t])
      && s'.table == s.table[id := s.nextRef] && s.nextRef in s'.store && s'.store[s.nextRef] == FreshResources(id)
  {
    hide Conclude, CallsDone;
  }

  lemma BetweenKeeps(yaml: Yaml, s: State, t: ThreadId)
    requires Inv(yaml, s) && IsWorking(s, t) && s.threads[t].at.Between? && s.threads[t].calls != []
    ensures Inv(yaml, StepBetween(s, t))
  {
    hide StepBetween, WorkingOk, CallsDone, Vacant, Settled, SessionOk;
    assert ThreadOk(yaml, s, s.threads[t]);
    BetweenStep(yaml, s, t, s.threads[t].session.id);
    OutsideStepKeeps(yaml, s, StepBetween(s, t), t, s.threads[t].session.id);
  }

  /** The closing section of an operation: the session's record changes and the thread is done. */
  ghost predicate CloseStep(s: State, s': State, t: ThreadId, id: SessionId) {
    && IsWorking(s, t) && s.threads[t].session.id == id && Holds(s.threads[t]) == None
    && t in s'.threads && s'.threads[t].Done?
    && s'.threads == s.threads[t := s'.threads[t]]
    && s'.table == s.table && s'.store == s.store && s'.nextRef == s.nextRef && s'.locks == s.locks
    && (forall other :: other != id ==>
          && (other in s.service.sessions <==> other in s'.service.sessions)
          && (other in s.service.sessions ==> s.service.sessions[other] == s'.service.sessions[other])
          && (other in s.service.phases <==> other in s'.service.phases)
          && (other in s.service.phases ==> s.service.phases[other] == s'.service.phases[other]))
    && (id in s'.service.phases <==> id in s'.service.sessions)
  }

  /** What the closing sections establish for their session. */
  ghost predicate WellClosed(s: State, s': State, id: SessionId) {
    && (id in s'.service.sessions ==>
          && SessionOk(s', id) && !Busy(s'.service.phases[id])
          && id in s.service.sessions && s'.service.sessions[id].grcContent == s.service.sessions[id].grcContent)
    && (id !in s'.service.sessions ==> id !in s.table)
  }

  lemma CloseStepResources(yaml: Yaml, s: State, s': State, t: ThreadId, id: SessionId, ref: Ref)
    requires Inv(yaml, s) && CloseStep(s, s', t, id) && WellClosed(s, s', id)
    requires ref in s.store && s.store[ref].sessionId == id
    ensures ResourcesOk(yaml, s', ref)
  {
    hide Settled, Vacant, PlaceOk, IsLive, CallsDone, RuntimeAgrees;
    assert ResourcesOk(yaml, s, ref);
    assert ThreadOk(yaml, s, s.threads[t]);
    if exists u :: LockedBy(s, ref, u) && u in s.threads && MidBody(s.threads[u]) {
      var u :| LockedBy(s, ref, u) && u in s.threads && MidBody(s.threads[u]);
      assert ThreadOk(yaml, s, s.threads[u]);
    }
    if id in s'.service.sessions {
      assert SessionOk(s, id);
      StateDoesNotMatter(yaml, s.service.sessions[id], s'.service.sessions[id], s.store[ref]);
    }
  }

  lemma CloseStepTouches(yaml: Yaml, s: State, s': State, t: ThreadId, id: SessionId)
    requires Inv(yaml, s) && CloseStep(s, s', t, id)
    ensures OnlyTouches(s, s', t, id)
    ensures forall ref: Ref :: !LockedBy(s', ref, t)
    ensures forall u :: u != t ==> !Operates(s, u, id)
  {
    hide Settled, Vacant, PlaceOk, IsLive, CallsDone, ResourcesOk, SessionOk, WorkingOk;
    assert forall ref, u :: LockedBy(s', ref, u) <==> LockedBy(s, ref, u);
  }

  lemma CloseStepKeeps(yaml: Yaml, s: State, s': State, t: ThreadId, id: SessionId)
    requires Inv(yaml, s) && CloseStep(s, s', t, id) && WellClosed(s, s', id)
    ensures Inv(yaml, s')
  {
    CloseStepTouches(yaml, s, s', t, id);
    forall ref | ref in s'.store && s'.store[ref].sessionId == id ensures ResourcesOk(yaml, s', ref) {
      CloseStepResources(yaml, s, s', t, id, ref);
    }
    assert OwnPart(yaml, s, s', t, id) by {
      hide Settled, Vacant, PlaceOk, IsLive, CallsDone, ResourcesOk, RuntimeAgrees, OnlyTouches, WorkingOk;
    }
    hide Inv, OwnPart, OnlyTouches, CloseStep, WellClosed;
    OwnStepKeeps(yaml, s, s', t, id);
  }

  lemma ConcludeStep(yaml: Yaml, s: State, t: ThreadId, id: SessionId)
    requires IsWorking(s, t) && s.threads[t].at.Between? && s.threads[t].calls == [] && s.threads[t].session.id == id
    requires WorkingOk(yaml, s, s.threads[t]) && SessionOk(s, id)
    ensures CloseStep(s, StepBetween(s, t), t, id) && WellClosed(s, StepBetween(s, t), id)
    ensures StepBetween(s, t).threads[t] == Done(Finished)
  {
  }

  lemma ConcludeKeeps(yaml: Yaml, s: State, t: ThreadId)
    requires Inv(yaml, s) && IsWorking(s, t) && s.threads[t].at.Between? && s.threads[t].calls == []
    ensures Inv(yaml, StepBetween(s, t))
    ensures StepBetween(s, t).threads[t] == Done(Finished)
  {
    hide StepBetween, SessionOk, CallsDone;
    assert ThreadOk(yaml, s, s.threads[t]);
    ConcludeStep(yaml, s, t, s.threads[t].session.id);
    CloseStepKeeps(yaml, s, StepBetween(s, t), t, s.threads[t].session.id);
  }

  lemma RaisedStep(yaml: Yaml, s: State, t: ThreadId, id: SessionId)
    requires IsWorking(s, t) && s.threads[t].at.Raised? && s.threads[t].session.id == id
    requires WorkingOk(yaml, s, s.threads[t]) && SessionOk(s, id)
    ensures CloseStep(s, StepRaised(s, t), t, id) && WellClosed(s, StepRaised(s, t), id)
    ensures StepRaised(s, t).threads[t] == Done(Failure(RuntimeFailure))
  {
    hide FailureMessage;
  }

  lemma RaisedKeeps(yaml: Yaml, s: State, t: ThreadId)
    requires Inv(yaml, s) && IsWorking(s, t) && s.threads[t].at.Raised?
    ensures Inv(yaml, StepRaised(s, t))
    ensures StepRaised(s, t).threads[t] == Done(Failure(RuntimeFailure))
  {
    hide StepRaised, SessionOk;
    assert ThreadOk(yaml, s, s.threads[t]);
    RaisedStep(yaml, s, t, s.threads[t].session.id);
    CloseStepKeeps(yaml, s, StepRaised(s, t), t, s.threads[t].session.id);
  }

  // ----- readers, new operations, new sessions -----

  /** A thread that runs no lifecycle operation moves; only it and the mutex it takes or leaves change. */
  ghost predicate BystanderStep(yaml: Yaml, s: State, s': State, t: ThreadId) {
    && !IsWorking(s, t) && t in s'.threads && !s'.threads[t].Working?
    && s'.service == s.service && s'.table == s.table && s'.store == s.store && s'.nextRef == s.nextRef
    && s'.threads == s.threads[t := s'.threads[t]]
    && ThreadOk(yaml, s', s'.threads[t])
    && (forall ref, u :: u != t ==> (LockedBy(s', ref, u) <==> LockedBy(s, ref, u)))
    && (forall ref: Ref :: LockedBy(s', ref, t) <==> Holds(s'.threads[t]) == Some(ref))
  }

  lemma BystanderResources(yaml: Yaml, s: State, s': State, t: ThreadId, ref: Ref)
    requires BystanderStep(yaml, s, s', t) && ref in s.store && ResourcesOk(yaml, s, ref)
    ensures ResourcesOk(yaml, s', ref)
  {
    hide Settled, Vacant, ThreadOk;
    if exists u :: LockedBy(s, ref, u) && u in s.threads && MidBody(s.threads[u]) {
      var u :| LockedBy(s, ref, u) && u in s.threads && MidBody(s.threads[u]);
      assert LockedBy(s', ref, u) && s'.threads[u] == s.threads[u];
    }
  }

  /** What is said of a thread depends on the session it names and on that session's resources only. */
  lemma SameThreadOk(yaml: Yaml, s: State, s': State, th: Thread)
    requires s'.table == s.table && s'.store == s.store && ThreadOk(yaml, s, th)
    requires th.Working? ==>
        && th.session.id in s'.service.sessions && s'.service.sessions[th.session.id] == th.session
        && th.session.id in s'.service.phases && s'.service.phases[th.session.id] == ClaimPhase(th.operation)
    ensures ThreadOk(yaml, s', th)
  {
    hide PlaceOk, IsLive, Vacant;
  }

  lemma BystanderKeeps(yaml: Yaml, s: State, s': State, t: ThreadId)
    requires Inv(yaml, s) && BystanderStep(yaml, s, s', t)
    ensures Inv(yaml, s')
  {
    hide Settled, Vacant, PlaceOk, IsLive, CallsDone, ResourcesOk, PublicStateAgrees;
    forall ref | ref in s.store ensures ResourcesOk(yaml, s', ref) {
      BystanderResources(yaml, s, s', t, ref);
    }
    forall id | id in s.service.sessions ensures SessionOk(s', id) {
      assert SessionOk(s, id);
    }
    forall id | id in s.service.sessions && Busy(s.service.phases[id]) ensures exists u :: Operates(s', u, id) {
      var u :| Operates(s, u, id);
      assert Operates(s', u, id);
    }
    forall u | u in s'.threads ensures ThreadOk(yaml, s', s'.threads[u]) {
      if u != t { SameThreadOk(yaml, s, s', s.threads[u]); }
    }
    forall ref | ref in s'.locks ensures s'.locks[ref] in s'.threads {
      assert LockedBy(s', ref, s'.locks[ref]);
    }
  }

  lemma FreeThreadKeeps(yaml: Yaml, s: State, t: ThreadId, th: Thread)
    requires Inv(yaml, s) && Free(s, t)
    requires th.Done? || (th.Reading? && th.place.Looking?)
    ensures Inv(yaml, s.(threads := s.threads[t := th]))
  {
    var s' := s.(threads := s.threads[t := th]);
    hide ServiceInv, StoreInv, ThreadInv;
    forall ref: Ref ensures !LockedBy(s, ref, t) {
    }
    assert forall ref, u :: LockedBy(s', ref, u) <==> LockedBy(s, ref, u);
    BystanderKeeps(yaml, s, s', t);
  }

  lemma ReadingKeeps(yaml: Yaml, s: State, t: ThreadId)
    requires Inv(yaml, s) && t in s.threads && s.threads[t].Reading? && !Blocked(s, s.threads[t])
    requires WellPlaced(s, s.threads[t])
    ensures Inv(yaml, StepReading(s, t))
  {
    var s' := StepReading(s, t);
    hide Answered, ResourcesOk, WorkingOk, Settled, Vacant, ServiceInv;
    assert ThreadOk(yaml, s, s.threads[t]);
    forall ref: Ref ensures LockedBy(s, ref, t) <==> Holds(s.threads[t]) == Some(ref) { }
    ReadingIsBystander(yaml, s, t);
    hide BystanderStep, StepReading;
    BystanderKeeps(yaml, s, s', t);
  }

  lemma ReadingIsBystander(yaml: Yaml, s: State, t: ThreadId)
    requires t in s.threads && s.threads[t].Reading? && !Blocked(s, s.threads[t]) && WellPlaced(s, s.threads[t])
    requires ThreadOk(yaml, s, s.threads[t])
    requires forall id :: id in s.table ==> s.table[id] in s.store && s.store[s.table[id]].sessionId == id
    requires forall ref: Ref :: LockedBy(s, ref, t) <==> Holds(s.threads[t]) == Some(ref)
    ensures BystanderStep(yaml, s, StepReading(s, t), t)
  {
    hide Answered, WorkingOk;
    var s' := StepReading(s, t);
    forall ref: Ref ensures LockedBy(s', ref, t) <==> Holds(s'.threads[t]) == Some(ref) {
      assert LockedBy(s, ref, t) <==> Holds(s.threads[t]) == Some(ref);
    }
    if s.threads[t].place.ReadEntered? { assert LockedBy(s, s.threads[t].place.ref, t); }
  }

  lemma ClaimTouches(yaml: Yaml, s: State, t: ThreadId, operation: Operation, id: SessionId)
    requires Inv(yaml, s) && Free(s, t) && Open(s.service, operation, id).Claimed?
    ensures OnlyTouches(s, StepBegin(s, t, operation, id), t, id)
    ensures forall ref: Ref :: !LockedBy(StepBegin(s, t, operation, id), ref, t)
    ensures forall u :: !Operates(s, u, id)
  {
    NobodyOperates(yaml, s, operation, id);
    var s' := StepBegin(s, t, operation, id);
    assert s.threads[t := s'.threads[t]] == s'.threads && s'.threads[t].Working? && s'.threads[t].session.id == id;
    hide Settled, Vacant, PlaceOk, IsLive, CallsDone, ResourcesOk, RuntimeAgrees, ServiceInv, ThreadInv, StoreInv, Open, Program, StepBegin;
    forall ref: Ref ensures !LockedBy(s, ref, t) { }
    ServiceStepTouches(s, s', t, id);
  }

  /** A section under the service mutex changes the claimed session's phase and the thread, and nothing else. */
  lemma ServiceStepTouches(s: State, s': State, t: ThreadId, id: SessionId)
    requires s' == s.(service := s'.service, threads := s'.threads)
    requires Free(s, t) && t in s'.threads && s'.threads == s.threads[t := s'.threads[t]]
    requires s'.threads[t].Working? ==> s'.threads[t].session.id == id
    requires s'.service.sessions == s.service.sessions
    requires forall other :: other != id ==>
        && (other in s.service.phases <==> other in s'.service.phases)
        && (other in s.service.phases ==> s.service.phases[other] == s'.service.phases[other])
    ensures OnlyTouches(s, s', t, id)
    ensures forall ref, u :: LockedBy(s', ref, u) <==> LockedBy(s, ref, u)
  {
  }

  /** A session that can be claimed is free: a thread on it would have left it in a busy phase. */
  lemma NobodyOperates(yaml: Yaml, s: State, operation: Operation, id: SessionId)
    requires Inv(yaml, s) && Open(s.service, operation, id).Claimed?
    ensures id in s.service.sessions && s.service.sessions[id].id == id
    ensures forall u :: !Operates(s, u, id)
  {
    hide Settled, Vacant, PlaceOk, IsLive, CallsDone, StoreInv, LockInv, RuntimeAgrees;
    assert SessionOk(s, id);
    forall u | IsWorking(s, u) ensures !Operates(s, u, id) {
      assert ThreadOk(yaml, s, s.threads[u]);
    }
  }

  lemma ClaimOwns(yaml: Yaml, s: State, t: ThreadId, operation: Operation, id: SessionId)
    requires Free(s, t) && Open(s.service, operation, id).Claimed? && SessionOk(s, id)
    requires id in s.table ==> s.table[id] in s.store && s.store[s.table[id]].sessionId == id
    requires forall ref: Ref :: !LockedBy(StepBegin(s, t, operation, id), ref, t)
    requires forall u :: !Operates(s, u, id)
    requires forall ref :: ref in s.store ==> ResourcesOk(yaml, StepBegin(s, t, operation, id), ref)
    ensures OwnPart(yaml, s, StepBegin(s, t, operation, id), t, id)
  {
    hide Settled, Vacant, PlaceOk, IsLive, CallsDone, ResourcesOk, Program;
    var s' := StepBegin(s, t, operation, id);
    ProgramEnds(operation, s.service.sessions[id].state);
    assert Operates(s', t, id);
    assert SessionOk(s', id);
    assert WorkingOk(yaml, s', s'.threads[t]);
  }

  lemma ClaimKeeps(yaml: Yaml, s: State, t: ThreadId, operation: Operation, id: SessionId)
    requires Inv(yaml, s) && Free(s, t) && Open(s.service, operation, id).Claimed?
    ensures Inv(yaml, StepBegin(s, t, operation, id))
  {
    var s' := StepBegin(s, t, operation, id);
    ClaimTouches(yaml, s, t, operation, id);
    hide OnlyTouches, ResourcesOk, SessionOk, ThreadInv, LockInv, OwnPart;
    forall ref | ref in s'.store ensures ResourcesOk(yaml, s', ref) {
      ClaimResources(yaml, s, s', t, ref);
    }
    ClaimOwns(yaml, s, t, operation, id);
    OwnStepKeeps(yaml, s, s', t, id);
  }

  lemma ProgramEnds(operation: Operation, state: SessionState)
    ensures Program(operation, state) != []
    ensures Program(operation, state)[|Program(operation, state)| - 1] == LastCall(operation)
  {
  }

  lemma ClaimResources(yaml: Yaml, s: State, s': State, t: ThreadId, ref: Ref)
    requires Inv(yaml, s) && Free(s, t) && ref in s.store
    requires s'.store == s.store && s'.table == s.table && s'.service.sessions == s.service.sessions && s'.locks == s.locks
    requires forall u :: u in s.threads && u != t ==> u in s'.threads && s'.threads[u] == s.threads[u]
    ensures ResourcesOk(yaml, s', ref)
  {
    hide Settled, Vacant, ServiceInv, ThreadInv;
    assert ResourcesOk(yaml, s, ref);
    if exists u :: LockedBy(s, ref, u) && u in s.threads && MidBody(s.threads[u]) {
      var u :| LockedBy(s, ref, u) && u in s.threads && MidBody(s.threads[u]);
      assert LockedBy(s', ref, u) && u in s'.threads;
    }
  }

  lemma CreateKeeps(yaml: Yaml, s: State, session: Session)
    requires Inv(yaml, s) && Enabled(s, CreateSession(session))
    ensures Inv(yaml, s.(service := Created(s.service, session)))
  {
    var s' := s.(service := Created(s.service, session));
    hide Settled, Vacant, PlaceOk, IsLive, CallsDone;
    assert session.id !in s.table;
    forall id | id in s'.service.sessions ensures SessionOk(s', id) {
      if id != session.id { assert SessionOk(s, id); }
    }
    forall id | id in s'.service.sessions && Busy(s'.service.phases[id]) ensures exists u :: Operates(s', u, id) {
      var u :| Operates(s, u, id);
      assert Operates(s', u, id);
    }
    forall u | u in s'.threads ensures ThreadOk(yaml, s', s'.threads[u]) {
      SameThreadOk(yaml, s, s', s.threads[u]);
    }
    forall ref | ref in s'.store ensures ResourcesOk(yaml, s', ref) {
      CreateResources(yaml, s, s', session.id, ref);
    }
    assert forall ref, u :: LockedBy(s', ref, u) <==> LockedBy(s, ref, u);
  }

  lemma CreateResources(yaml: Yaml, s: State, s': State, id: SessionId, ref: Ref)
    requires Inv(yaml, s) && ref in s.store && id !in s.service.sessions
    requires s' == s.(service := s'.service)
    requires forall other :: other != id && other in s.service.sessions ==>
        other in s'.service.sessions && s'.service.sessions[other] == s.service.sessions[other]
    ensures ResourcesOk(yaml, s', ref)
  {
    hide Settled, Vacant, ServiceInv, ThreadInv;
    assert ResourcesOk(yaml, s, ref);
    if exists u :: LockedBy(s, ref, u) && u in s.threads && MidBody(s.threads[u]) {
      var u :| LockedBy(s, ref, u) && u in s.threads && MidBody(s.threads[u]);
      assert LockedBy(s', ref, u);
    }
  }

  // ----- every step -----

  lemma InsideIsGood(yaml: Yaml, s: State, t: ThreadId, answer: Answer)
    requires Inv(yaml, s) && Enabled(s, Advance(t, answer)) && s.threads[t].Working?
    requires !s.threads[t].at.Between? && !s.threads[t].at.Raised? && !s.threads[t].at.Erasing?
    ensures GoodStep(yaml, s, StepWorking(yaml, s, t, answer), t, s.threads[t].at.ref)
  {
    hide Inv, GoodStep, StepFetched, StepEntered, StepAtOnce, StepInOnce, StepReleasing, StepAllocating, StepLoading, StepUndoing,
         StepPrepared, StepSchedulerStarting, StepSchedulerStopping, StepTorndown;
    var ref := s.threads[t].at.ref;
    WhileInside(yaml, s, t);
    assert Inside(yaml, s, t, ref);
    match s.threads[t].at {
      case Fetched(_) => FetchedStep(yaml, s, t, ref);
      case Entered(_) =>
        if Starts(s.threads[t].calls[0]) { EnteredToStart(yaml, s, t, ref); } else { EnteredToStop(yaml, s, t, ref); }
      case AtOnce(_) => AtOnceStep(yaml, s, t, ref);
      case InOnce(_) => InOnceStep(yaml, s, t, ref, answer);
      case Releasing(_, next) =>
        if next.ThenErase? { ReleasedStep(yaml, s, t, ref); } else { ReleasingStep(yaml, s, t, ref); }
      case Allocating(_, _, _) => AllocatingStep(yaml, s, t, ref, answer);
      case Loading(_, _) => LoadingStep(yaml, s, t, ref, answer);
      case Undoing(_, _) => UndoingStep(yaml, s, t, ref);
      case Prepared(_) => PreparedStep(yaml, s, t, ref);
      case SchedulerStarting(_) => SchedulerStartingStep(yaml, s, t, ref, answer);
      case SchedulerStopping(_) => SchedulerStoppingStep(yaml, s, t, ref, answer);
      case Torndown(_) => TorndownStep(yaml, s, t, ref);
    }
  }

  /** A step that is taken inside a body keeps the invariant because it is a good step of that body. */
  lemma InsideKeeps(yaml: Yaml, s: State, t: ThreadId, answer: Answer)
    requires Inv(yaml, s) && Enabled(s, Advance(t, answer)) && s.threads[t].Working?
    requires !s.threads[t].at.Between? && !s.threads[t].at.Raised? && !s.threads[t].at.Erasing?
    ensures Inv(yaml, StepWorking(yaml, s, t, answer))
  {
    hide Inv, GoodStep, Inside, StepWorking;
    WhileInside(yaml, s, t);
    InsideIsGood(yaml, s, t, answer);
    GoodStepKeeps(yaml, s, StepWorking(yaml, s, t, answer), t, s.threads[t].at.ref);
  }

  /** The invariant is inductive. */
  lemma StepKeeps(yaml: Yaml, s: State, event: Event)
    requires Inv(yaml, s) && Enabled(s, event)
    ensures Inv(yaml, Step(yaml, s, event))
  {
    hide Inv, StepBetween, StepErasing, StepRaised, StepReading;
    match event {
      case CreateSession(session) => CreateKeeps(yaml, s, session);
      case Begin(t, operation, id) =>
        match Open(s.service, operation, id) {
          case Refused(error) => FreeThreadKeeps(yaml, s, t, Done(Failure(error)));
          case AlreadyStopped(_) => FreeThreadKeeps(yaml, s, t, Done(Unchanged));
          case Claimed(_) => ClaimKeeps(yaml, s, t, operation, id);
        }
      case BeginRead(t, read, id) =>
        FreeThreadKeeps(yaml, s, t, StepBeginRead(s, t, read, id).threads[t]);
      case Advance(t, answer) =>
        if s.threads[t].Reading? { ReadingKeeps(yaml, s, t); }
        else if s.threads[t].at.Between? {
          if s.threads[t].calls == [] { ConcludeKeeps(yaml, s, t); } else { BetweenKeeps(yaml, s, t); }
        }
        else if s.threads[t].at.Raised? { RaisedKeeps(yaml, s, t); }
        else if s.threads[t].at.Erasing? { ErasingKeeps(yaml, s, t); }
        else { InsideKeeps(yaml, s, t, answer); }
    }
  }

  /** Every state of every run satisfies the invariant. */
  lemma {:induction false} RunKeeps(yaml: Yaml, states: seq<State>, events: seq<Event>, i: nat)
    requires IsRun(yaml, states, events) && i < |states|
    ensures Inv(yaml, states[i])
  {
    hide Inv, Step;
    if i == 0 {
      InitInv(yaml);
    } else {
      RunKeeps(yaml, states, events, i - 1);
      StepKeeps(yaml, states[i - 1], events[i - 1]);
    }
  }
}
