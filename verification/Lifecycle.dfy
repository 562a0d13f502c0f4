/**
 * The session lifecycle as a transition system: any number of threads run operations of the session
 * service against the runtime manager and its port allocator. One step is one critical section of
 * the code: an opening or closing section under the service mutex, a lookup under the map mutex,
 * one allocator call, or one stretch of a body that runs under a session's own mutex between two
 * calls out of it. Answers of the environment (plugin bootstrap, graph loading, scheduler start and
 * stop, port reservation) are part of the step's label.
 */
module Lifecycle {
  import opened Common
  import opened Pmt
  import opened Sessions
  import opened SessionStreams
  import opened StreamBindings
  import opened FlowGraphs
  import opened SessionServices

  type ThreadId = nat

  /** A shared pointer to a session's runtime resources: objects outlive their entry in the table. */
  type Ref = nat

  datatype Execution = Execution(running: bool, graph: Option<PropertyMap>)

  /**
   * The runtime resources of a session. `released` is the index of the loop that hands the ports of
   * `bindings` back; it is zero outside that loop.
   */
  datatype Resources = Resources(
    sessionId: SessionId,
    generation: nat,
    phase: LifecyclePhase,
    execution: Option<Execution>,
    bindings: seq<StreamBinding>,
    released: nat)

  datatype RuntimeCall = PrepareCall | StartCall | StopCall | DestroyCall

  /** What follows the loop that releases a session's bindings. */
  datatype AfterRelease = ThenAllocate | ThenIdle | ThenDropExecution | ThenErase

  datatype Position =
    | Between                                   // no runtime call in progress
    | Fetched(ref: Ref)                         // pointer in hand, waiting for the session's mutex
    | Entered(ref: Ref)                         // mutex just taken
    | AtOnce(ref: Ref)                          // at the once-flag of the plugin bootstrap, which it may have to wait for
    | InOnce(ref: Ref)                          // running the bootstrap
    | Releasing(ref: Ref, next: AfterRelease)
    | Allocating(ref: Ref, built: seq<StreamBinding>, todo: seq<StreamPlan>)
    | Loading(ref: Ref, built: seq<StreamBinding>)
    | Undoing(ref: Ref, built: seq<StreamBinding>)
    | Prepared(ref: Ref)                        // prepare_locked has returned
    | SchedulerStarting(ref: Ref)
    | SchedulerStopping(ref: Ref)
    | Torndown(ref: Ref)                        // stop_locked has returned
    | Erasing(ref: Ref)                         // destroy has left the session's mutex
    | Raised                                    // an exception is on its way to record_runtime_failure

  /** History of one runtime call: the ports its session held when it began, and those handed back since. */
  datatype Receipt = Receipt(held: set<Port>, freed: set<Port>)

  datatype Read = PlanRead | HttpRead(streamId: string) | WebSocketRead(wsStreamId: string) | SettingsRead

  datatype ReadPosition = Looking | ReadFetched(ref: Ref) | ReadEntered(ref: Ref, found: Found)

  /** What a reader gets; `Absent` stands for an empty optional or a thrown "not running"/"not found". */
  datatype Found = Absent | Plan(plan: seq<StreamPlan>) | Route(binding: StreamBinding) | Live

  datatype Outcome = Finished | Unchanged | Failure(error: ServiceError) | ReadResult(found: Found)

  datatype Thread =
    | Working(operation: Operation, session: Session, calls: seq<RuntimeCall>, at: Position, receipt: Receipt)
    | Reading(read: Read, session: Session, place: ReadPosition)
    | Done(outcome: Outcome)

  /** The process-wide once-flag of the plugin bootstrap, and the error it keeps if the bootstrap failed. */
  datatype Once = NotCalled | CalledBy(thread: ThreadId) | Returned(failed: bool)

  /** `leaked` is history: ports taken by a half-built binding list that an exception threw away. */
  datatype State = State(
    service: ServiceState,
    table: map<SessionId, Ref>,
    store: map<Ref, Resources>,
    nextRef: Ref,
    locks: map<Ref, ThreadId>,
    once: Once,
    ports: set<Port>,
    leaked: set<Port>,
    threads: map<ThreadId, Thread>)

  datatype Answer = Returns | Throws | Offers(offers: PortOffers)

  datatype Event =
    | CreateSession(session: Session)
    | Begin(thread: ThreadId, operation: Operation, id: SessionId)
    | BeginRead(thread: ThreadId, read: Read, id: SessionId)
    | Advance(thread: ThreadId, answer: Answer)

  const INIT := State(ServiceState(map[], map[]), map[], map[], 0, map[], NotCalled, {}, {}, map[])

  function FreshResources(id: SessionId): Resources {
    Resources(id, 0, LifecyclePhase.Idle, None, [], 0)
  }

  /** The runtime calls of an operation, given the public state its opening section saw. */
  function Program(operation: Operation, state: SessionState): seq<RuntimeCall> {
    match operation
    case Start => [PrepareCall, StartCall]
    case Stop => [StopCall]
    case Restart => (if state.Running? then [StopCall] else []) + [DestroyCall, PrepareCall, StartCall]
    case Remove => (if state.Running? then [StopCall] else []) + [DestroyCall]
  }

  function FailureMessage(operation: Operation, id: SessionId): string {
    var action := match operation case Start => "start" case Stop => "stop" case Restart => "restart" case Remove => "remove";
    "runtime " + action + " failed for session " + id
  }

  // ----- small moves -----

  predicate IsWorking(s: State, t: ThreadId) {
    t in s.threads && s.threads[t].Working?
  }

  function MoveTo(s: State, t: ThreadId, at: Position): State
    requires IsWorking(s, t)
  {
    s.(threads := s.threads[t := s.threads[t].(at := at)])
  }

  function Put(s: State, ref: Ref, resources: Resources): State {
    s.(store := s.store[ref := resources])
  }

  /** Leaves the session's mutex with an exception. */
  function Throw(s: State, t: ThreadId, ref: Ref): State
    requires IsWorking(s, t)
  {
    MoveTo(s, t, Raised).(locks := s.locks - {ref})
  }

  /** The current runtime call is over. */
  function NextCall(s: State, t: ThreadId): State
    requires IsWorking(s, t) && s.threads[t].calls != []
  {
    s.(threads := s.threads[t := s.threads[t].(calls := s.threads[t].calls[1..], at := Between)])
  }

  /** Leaves the session's mutex and returns from the current runtime call. */
  function Return(s: State, t: ThreadId, ref: Ref): State
    requires IsWorking(s, t) && s.threads[t].calls != []
  {
    NextCall(s, t).(locks := s.locks - {ref})
  }

  function Finish(s: State, t: ThreadId, outcome: Outcome): State {
    s.(threads := s.threads[t := Done(outcome)])
  }

  // ----- steps of one lifecycle operation -----

  /** Between two runtime calls: look the session up for the next one, or close the operation. */
  function StepBetween(s: State, t: ThreadId): State
    requires IsWorking(s, t)
  {
    var th := s.threads[t];
    var id := th.session.id;
    if th.calls == [] then
      if id in s.service.sessions then Finish(s.(service := Conclude(s.service, th.operation, id)), t, Finished)
      else Finish(s, t, Failure(NotFound))
    else if th.calls[0].PrepareCall? || th.calls[0].StartCall? then
      if id in s.table then MoveTo(s, t, Fetched(s.table[id]))
      else MoveTo(s.(table := s.table[id := s.nextRef], store := s.store[s.nextRef := FreshResources(id)],
                     nextRef := s.nextRef + 1), t, Fetched(s.nextRef))
    else
      if id in s.table then MoveTo(s, t, Fetched(s.table[id])) else NextCall(s, t)
  }

  function StepFetched(s: State, t: ThreadId, ref: Ref): State
    requires IsWorking(s, t) && ref in s.store
  {
    var th := s.threads[t];
    s.(locks := s.locks[ref := t],
       threads := s.threads[t := th.(at := Entered(ref), receipt := Receipt(PortsOf(s.store[ref].bindings), {}))])
  }

  /** The checks at the head of prepare_locked and of stop_locked. */
  function StepEntered(yaml: Yaml, s: State, t: ThreadId, ref: Ref): State
    requires IsWorking(s, t) && s.threads[t].calls != [] && ref in s.store
  {
    var th := s.threads[t];
    var resources := s.store[ref];
    if th.calls[0].PrepareCall? || th.calls[0].StartCall? then
      if resources.phase.Stopping? then Throw(s, t, ref)
      else if resources.execution.Some? then MoveTo(s, t, Prepared(ref))
      else if ContractErrorOf(yaml, th.session).Some? then Throw(s, t, ref)
      else MoveTo(s, t, AtOnce(ref))
    else
      if resources.execution.None? then MoveTo(s, t, Releasing(ref, ThenIdle))
      else if resources.phase.Stopping? then Throw(s, t, ref)
      else
        MoveTo(Put(s, ref, resources.(phase := LifecyclePhase.Stopping)), t,
               if resources.execution.value.running then SchedulerStopping(ref) else Releasing(ref, ThenDropExecution))
  }

  /** The first thread to get here runs the bootstrap; the others wait for its end, and all see how it ended. */
  function StepAtOnce(s: State, t: ThreadId, ref: Ref): State
    requires IsWorking(s, t)
  {
    match s.once
    case NotCalled => MoveTo(s, t, InOnce(ref)).(once := CalledBy(t))
    case CalledBy(_) => s
    case Returned(failed) => if failed then Throw(s, t, ref) else MoveTo(s, t, Releasing(ref, ThenAllocate))
  }

  function StepInOnce(s: State, t: ThreadId, ref: Ref, answer: Answer): State
    requires IsWorking(s, t)
  {
    (if answer.Throws? then Throw(s, t, ref) else MoveTo(s, t, Releasing(ref, ThenAllocate))).(once := Returned(answer.Throws?))
  }

  function StepSchedulerStopping(s: State, t: ThreadId, ref: Ref, answer: Answer): State
    requires IsWorking(s, t) && ref in s.store && s.store[ref].execution.Some?
  {
    var resources := s.store[ref];
    if answer.Throws? then Throw(Put(s, ref, resources.(phase := LifecyclePhase.Failed)), t, ref)
    else MoveTo(Put(s, ref, resources.(execution := Some(resources.execution.value.(running := false)))), t,
                Releasing(ref, ThenDropExecution))
  }

  /** One turn of the release loop: one allocator call, or the end of the loop. */
  function StepReleasing(yaml: Yaml, s: State, t: ThreadId, ref: Ref, next: AfterRelease): State
    requires IsWorking(s, t) && ref in s.store
  {
    var th := s.threads[t];
    var resources := s.store[ref];
    if resources.released < |resources.bindings| then
      var port := resources.bindings[resources.released].internal.port;
      s.(ports := s.ports - {port},
         store := s.store[ref := resources.(released := resources.released + 1)],
         threads := s.threads[t := th.(receipt := th.receipt.(freed := th.receipt.freed + {port}))])
    else
      var cleared := resources.(bindings := [], released := 0);
      match next
      case ThenAllocate => MoveTo(Put(s, ref, cleared), t, Allocating(ref, [], PlannedStreams(yaml, th.session)))
      case ThenIdle => MoveTo(Put(s, ref, cleared.(phase := LifecyclePhase.Idle)), t, Torndown(ref))
      case ThenDropExecution =>
        MoveTo(Put(s, ref, cleared.(execution := None, phase := LifecyclePhase.Idle)), t, Torndown(ref))
      case ThenErase =>
        MoveTo(Put(s, ref, cleared.(phase := LifecyclePhase.Idle)), t, Erasing(ref)).(locks := s.locks - {ref})
  }

  /** One turn of the allocation loop of prepare_locked; a throw abandons what was built. */
  function StepAllocating(s: State, t: ThreadId, ref: Ref, answer: Answer): State
    requires IsWorking(s, t) && s.threads[t].at.Allocating?
  {
    var at := s.threads[t].at;
    if at.todo == [] then MoveTo(s, t, Loading(ref, at.built))
    else
      var port := if answer.Offers? then FirstFree(answer.offers, s.ports, MAX_ATTEMPTS) else None;
      match port
      case None => Throw(s, t, ref).(leaked := s.leaked + PortsOf(at.built))
      case Some(port) =>
        MoveTo(s, t, Allocating(ref, at.built + [BindStream(at.todo[0], port)], at.todo[1..])).(ports := s.ports + {port})
  }

  function StepLoading(yaml: Yaml, s: State, t: ThreadId, ref: Ref, built: seq<StreamBinding>, answer: Answer): State
    requires IsWorking(s, t) && ref in s.store
  {
    var resources := s.store[ref];
    var loaded := LoadedGraph(yaml, s.threads[t].session.grcContent, built);
    if loaded.Err? || answer.Throws? then MoveTo(s, t, Undoing(ref, built))
    else
      MoveTo(Put(s, ref, resources.(execution := Some(Execution(false, loaded.value)), bindings := built,
                                    generation := resources.generation + 1, phase := LifecyclePhase.Idle)),
             t, Prepared(ref))
  }

  /** One turn of the loop in the exception handler of prepare_locked. */
  function StepUndoing(s: State, t: ThreadId, ref: Ref, built: seq<StreamBinding>): State
    requires IsWorking(s, t)
  {
    if built == [] then Throw(s, t, ref)
    else MoveTo(s, t, Undoing(ref, built[1..])).(ports := s.ports - {built[0].internal.port})
  }

  function StepPrepared(s: State, t: ThreadId, ref: Ref): State
    requires IsWorking(s, t) && s.threads[t].calls != [] && ref in s.store && s.store[ref].execution.Some?
  {
    var resources := s.store[ref];
    if s.threads[t].calls[0].PrepareCall? then Return(s, t, ref)
    else if resources.phase.Stopping? then Throw(s, t, ref)
    else if resources.execution.value.running && resources.phase.Running? then Return(s, t, ref)
    else MoveTo(Put(s, ref, resources.(phase := LifecyclePhase.Starting)), t, SchedulerStarting(ref))
  }

  function StepSchedulerStarting(s: State, t: ThreadId, ref: Ref, answer: Answer): State
    requires IsWorking(s, t) && s.threads[t].calls != [] && ref in s.store && s.store[ref].execution.Some?
  {
    var resources := s.store[ref];
    if answer.Throws? then Throw(s, t, ref)
    else Return(Put(s, ref, resources.(execution := Some(resources.execution.value.(running := true)),
                                       phase := LifecyclePhase.Running)), t, ref)
  }

  function StepTorndown(s: State, t: ThreadId, ref: Ref): State
    requires IsWorking(s, t) && s.threads[t].calls != [] && ref in s.store
  {
    if s.threads[t].calls[0].StopCall? then Return(s, t, ref)
    else MoveTo(Put(s, ref, s.store[ref].(execution := None)), t, Releasing(ref, ThenErase))
  }

  function StepErasing(s: State, t: ThreadId, ref: Ref): State
    requires IsWorking(s, t) && s.threads[t].calls != []
  {
    var id := s.threads[t].session.id;
    var done := NextCall(s, t);
    if id in s.table && s.table[id] == ref then done.(table := s.table - {id}) else done
  }

  function StepRaised(s: State, t: ThreadId): State
    requires IsWorking(s, t)
  {
    var th := s.threads[t];
    var id := th.session.id;
    if id in s.service.sessions then
      Finish(s.(service := RecordFailure(s.service, id, FailureMessage(th.operation, id))), t, Failure(RuntimeFailure))
    else Finish(s, t, Failure(NotFound))
  }

  // ----- steps of one reader -----

  /** The first binding that a lookup for this stream id and kind of route accepts. */
  function FindBinding(bindings: seq<StreamBinding>, streamId: string, webSocket: bool): Found {
    if bindings == [] then Absent
    else if bindings[0].plan.streamId == streamId && (bindings[0].plan.transport == "websocket") == webSocket then Route(bindings[0])
    else FindBinding(bindings[1..], streamId, webSocket)
  }

  predicate IsLive(resources: Resources) {
    resources.execution.Some? && resources.execution.value.running && resources.phase.Running?
  }

  function Answered(resources: Resources, read: Read): Found {
    if !IsLive(resources) then Absent
    else match read
      case PlanRead => if resources.bindings == [] then Absent else Plan(PlansOf(resources.bindings))
      case HttpRead(id) => FindBinding(resources.bindings, id, false)
      case WebSocketRead(id) => FindBinding(resources.bindings, id, true)
      case SettingsRead => Live
  }

  function StepReading(s: State, t: ThreadId): State
    requires t in s.threads && s.threads[t].Reading?
    requires s.threads[t].place.ReadFetched? ==> s.threads[t].place.ref in s.store
  {
    var th := s.threads[t];
    match th.place
    case Looking =>
      if th.session.id in s.table then s.(threads := s.threads[t := th.(place := ReadFetched(s.table[th.session.id]))])
      else Finish(s, t, ReadResult(Absent))
    case ReadFetched(ref) =>
      s.(locks := s.locks[ref := t],
         threads := s.threads[t := th.(place := ReadEntered(ref, Answered(s.store[ref], th.read)))])
    case ReadEntered(ref, found) => Finish(s, t, ReadResult(found)).(locks := s.locks - {ref})
  }

  // ----- all steps -----

  predicate Free(s: State, t: ThreadId) {
    t !in s.threads || s.threads[t].Done?
  }

  /** The object a thread needs for its next step exists, and a runtime call is there to be run. */
  predicate WellPlaced(s: State, th: Thread) {
    match th
    case Done(_) => false
    case Reading(_, _, place) => place.ReadFetched? ==> place.ref in s.store
    case Working(_, _, calls, at, _) =>
      at.Between? || at.Raised?
      || (&& calls != [] && at.ref in s.store
          && (at.Prepared? || at.SchedulerStarting? || at.SchedulerStopping? ==> s.store[at.ref].execution.Some?))
  }

  /** A thread waits for a session's mutex while another thread holds it, or for the end of the bootstrap. */
  predicate Blocked(s: State, th: Thread) {
    || (th.Working? && th.at.Fetched? && th.at.ref in s.locks)
    || (th.Working? && th.at.AtOnce? && s.once.CalledBy?)
    || (th.Reading? && th.place.ReadFetched? && th.place.ref in s.locks)
  }

  predicate Enabled(s: State, event: Event) {
    match event
    case CreateSession(session) =>
      session.id !in s.service.sessions && session.grcContent != "" && session.state.Stopped? && session.lastError.None?
    case Begin(t, _, _) => Free(s, t)
    case BeginRead(t, _, _) => Free(s, t)
    case Advance(t, _) => t in s.threads && WellPlaced(s, s.threads[t]) && !Blocked(s, s.threads[t])
  }

  function StepBegin(s: State, t: ThreadId, operation: Operation, id: SessionId): State {
    match Open(s.service, operation, id)
    case Refused(error) => Finish(s, t, Failure(error))
    case AlreadyStopped(_) => Finish(s, t, Unchanged)
    case Claimed(session) =>
      s.(service := Claim(s.service, operation, id),
         threads := s.threads[t := Working(operation, session, Program(operation, session.state), Between, Receipt({}, {}))])
  }

  /** Readers check the public state; all but the settings reader check the service phase too. */
  function StepBeginRead(s: State, t: ThreadId, read: Read, id: SessionId): State {
    if id !in s.service.sessions then Finish(s, t, Failure(NotFound))
    else
      var session := s.service.sessions[id];
      if !session.state.Running? || (!read.SettingsRead? && !PhaseOf(s.service, session).Running?) then
        Finish(s, t, if read.PlanRead? then ReadResult(Absent) else Failure(InvalidState))
      else s.(threads := s.threads[t := Reading(read, session, Looking)])
  }

  function StepWorking(yaml: Yaml, s: State, t: ThreadId, answer: Answer): State
    requires IsWorking(s, t) && WellPlaced(s, s.threads[t])
  {
    match s.threads[t].at
    case Between => StepBetween(s, t)
    case Fetched(ref) => StepFetched(s, t, ref)
    case Entered(ref) => StepEntered(yaml, s, t, ref)
    case AtOnce(ref) => StepAtOnce(s, t, ref)
    case InOnce(ref) => StepInOnce(s, t, ref, answer)
    case Releasing(ref, next) => StepReleasing(yaml, s, t, ref, next)
    case Allocating(ref, _, _) => StepAllocating(s, t, ref, answer)
    case Loading(ref, built) => StepLoading(yaml, s, t, ref, built, answer)
    case Undoing(ref, built) => StepUndoing(s, t, ref, built)
    case Prepared(ref) => StepPrepared(s, t, ref)
    case SchedulerStarting(ref) => StepSchedulerStarting(s, t, ref, answer)
    case SchedulerStopping(ref) => StepSchedulerStopping(s, t, ref, answer)
    case Torndown(ref) => StepTorndown(s, t, ref)
    case Erasing(ref) => StepErasing(s, t, ref)
    case Raised => StepRaised(s, t)
  }

  function Step(yaml: Yaml, s: State, event: Event): State
    requires Enabled(s, event)
  {
    match event
    case CreateSession(session) => s.(service := Created(s.service, session))
    case Begin(t, operation, id) => StepBegin(s, t, operation, id)
    case BeginRead(t, read, id) => StepBeginRead(s, t, read, id)
    case Advance(t, answer) =>
      if s.threads[t].Working? then StepWorking(yaml, s, t, answer) else StepReading(s, t)
  }

  /** A run: the states passed through, each reached from the one before by some step. */
  ghost predicate IsRun(yaml: Yaml, states: seq<State>, events: seq<Event>) {
    && |states| == |events| + 1
    && states[0] == INIT
    && forall i :: 0 <= i < |events| ==> Enabled(states[i], events[i]) && states[i + 1] == Step(yaml, states[i], events[i])
  }

  lemma RunStep(yaml: Yaml, states: seq<State>, events: seq<Event>, i: nat)
    requires IsRun(yaml, states, events) && i < |events|
    ensures |states| == |events| + 1 && Enabled(states[i], events[i]) && states[i + 1] == Step(yaml, states[i], events[i])
  {
  }
}
