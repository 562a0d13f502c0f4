/**
 * The session repository and the critical sections of the session service. Every public operation
 * on a session is an opening section, which claims the session by moving its phase, runtime calls
 * made without the service mutex, and a closing section. The sections are functions on the
 * service's two maps; the classes run them on mutable fields.
 */
module SessionServices {
  import opened Common
  import opened Sessions

  datatype LifecyclePhase = Idle | Starting | Running | Stopping | Failed

  datatype ServiceState = ServiceState(sessions: map<SessionId, Session>, phases: map<SessionId, LifecyclePhase>)

  datatype Operation = Start | Stop | Restart | Remove

  datatype ServiceError = NotFound | InvalidState | Validation | RuntimeFailure

  datatype Opening = Claimed(session: Session) | AlreadyStopped(session: Session) | Refused(error: ServiceError)

  function PhaseOfState(state: SessionState): LifecyclePhase {
    match state
    case Stopped => LifecyclePhase.Idle
    case Running => LifecyclePhase.Running
    case Error => LifecyclePhase.Failed
  }

  /** The recorded phase; a session without one is in the phase its public state stands for. */
  function PhaseOf(service: ServiceState, session: Session): LifecyclePhase {
    if session.id in service.phases then service.phases[session.id] else PhaseOfState(session.state)
  }

  predicate Busy(phase: LifecyclePhase) {
    phase.Starting? || phase.Stopping?
  }

  /** The phase that marks a session as taken by an operation. */
  function ClaimPhase(operation: Operation): LifecyclePhase {
    if operation.Start? || operation.Restart? then LifecyclePhase.Starting else LifecyclePhase.Stopping
  }

  // ----- opening sections -----

  function Open(service: ServiceState, operation: Operation, id: SessionId): Opening {
    if id !in service.sessions then Refused(NotFound)
    else
      var session := service.sessions[id];
      var phase := PhaseOf(service, session);
      match operation
      case Start =>
        if session.state.Running? || phase.Running? then Refused(InvalidState)
        else if Busy(phase) then Refused(InvalidState)
        else Claimed(session)
      case Stop =>
        if Busy(phase) then Refused(InvalidState)
        else if session.state.Stopped? && phase.Idle? then AlreadyStopped(session)
        else Claimed(session)
      case _ =>
        if Busy(phase) then Refused(InvalidState) else Claimed(session)
  }

  function Claim(service: ServiceState, operation: Operation, id: SessionId): ServiceState {
    if Open(service, operation, id).Claimed? then service.(phases := service.phases[id := ClaimPhase(operation)]) else service
  }

  // ----- closing sections -----

  function Store(service: ServiceState, session: Session, phase: LifecyclePhase): ServiceState {
    ServiceState(service.sessions[session.id := session], service.phases[session.id := phase])
  }

  /** The session as a successful operation leaves it in the repository. */
  function Concluded(session: Session, operation: Operation): Session {
    session.(state := if operation.Stop? then SessionState.Stopped else SessionState.Running, lastError := None)
  }

  /** The closing section of an operation whose runtime calls all returned. */
  function Conclude(service: ServiceState, operation: Operation, id: SessionId): ServiceState {
    if id !in service.sessions then service
    else if operation.Remove? then ServiceState(service.sessions - {id}, service.phases - {id})
    else Store(service, Concluded(service.sessions[id], operation),
               if operation.Stop? then LifecyclePhase.Idle else LifecyclePhase.Running)
  }

  /** The closing section of an operation in which a runtime call threw. */
  function RecordFailure(service: ServiceState, id: SessionId, message: string): ServiceState {
    if id !in service.sessions then service
    else Store(service, service.sessions[id].(state := SessionState.Error, lastError := Some(message)), LifecyclePhase.Failed)
  }

  function NewSession(id: SessionId, name: string, grc: string, alias: Option<string>): Session {
    Session(id, name, grc, alias, SessionState.Stopped, None)
  }

  function Created(service: ServiceState, session: Session): ServiceState {
    Store(service, session, LifecyclePhase.Idle)
  }

  // ----- fetching from a stream -----

  datatype FetchAnswer = Responds(response: string) | Unreachable | Fails

  const FETCH_RETRIES: nat := 20

  /** Public state and recorded phase both say that the session runs; a session without a phase goes by its state. */
  predicate ServesStreams(service: ServiceState, session: Session) {
    session.state.Running? && (session.id in service.phases ==> service.phases[session.id].Running?)
  }

  // ----- the classes -----

  class InMemorySessionRepository {
    var sessions: map<SessionId, Session>

    constructor ()
      ensures sessions == map[]
    {
      sessions := map[];
    }

    method Create(session: Session) returns (inserted: bool)
      modifies this
      ensures inserted <==> session.id !in old(sessions)
      ensures sessions == if inserted then old(sessions)[session.id := session] else old(sessions)
    {
      inserted := session.id !in sessions;
      if inserted { sessions := sessions[session.id := session]; }
    }

    function Get(id: SessionId): Option<Session>
      reads this
    {
      if id in sessions then Some(sessions[id]) else None
    }

    method Update(session: Session) returns (known: bool)
      modifies this
      ensures known <==> session.id in old(sessions)
      ensures sessions == if known then old(sessions)[session.id := session] else old(sessions)
    {
      known := session.id in sessions;
      if known { sessions := sessions[session.id := session]; }
    }

    method Remove(id: SessionId) returns (removed: bool)
      modifies this
      ensures removed <==> id in old(sessions)
      ensures sessions == old(sessions) - {id}
    {
      removed := id in sessions;
      sessions := sessions - {id};
    }
  }

  class SessionService {
    const repository: InMemorySessionRepository
    var phases: map<SessionId, LifecyclePhase>

    constructor (repository: InMemorySessionRepository)
      ensures this.repository == repository && phases == map[]
    {
      this.repository := repository;
      phases := map[];
    }

    function View(): ServiceState
      reads this, repository
    {
      ServiceState(repository.sessions, phases)
    }

    function PhaseForLocked(session: Session): (phase: LifecyclePhase)
      reads this, repository
      ensures phase == PhaseOf(View(), session)
    {
      if session.id in phases then phases[session.id] else PhaseOfState(session.state)
    }

    /** Creation draws ids until one is unused; the generator must offer such an id some time. */
    method Create(name: string, grc: string, alias: Option<string>, generated: seq<SessionId>)
      returns (created: Result<Session, ServiceError>)
      requires exists i :: 0 <= i < |generated| && generated[i] !in repository.sessions
      modifies this, repository
      ensures grc == "" ==> created == Err(Validation) && View() == old(View())
      ensures grc != "" ==>
          && created.Ok?
          && created.value.id in generated && created.value.id !in old(repository.sessions)
          && created.value == Session(created.value.id, name, grc, alias, SessionState.Stopped, None)
          && repository.sessions == old(repository.sessions)[created.value.id := created.value]
          && phases == old(phases)[created.value.id := LifecyclePhase.Idle]
          && View() == Created(old(View()), created.value)
    {
      if grc == "" { return Err(Validation); }
      var i := 0;
      while repository.Get(generated[i]).Some?
        invariant i < |generated|
        invariant exists j :: i <= j < |generated| && generated[j] !in repository.sessions
        invariant View() == old(View())
        decreases |generated| - i
      {
        i := i + 1;
      }
      var session := NewSession(generated[i], name, grc, alias);
      var _ := repository.Create(session);
      phases := phases[session.id := LifecyclePhase.Idle];
      return Ok(session);
    }

    method OpenStart(id: SessionId) returns (opening: Opening)
      modifies this
      ensures opening == Open(old(View()), Start, id)
      ensures View() == Claim(old(View()), Start, id)
    {
      var loaded := repository.Get(id);
      if loaded.None? { return Refused(NotFound); }
      var session := loaded.value;
      var phase := PhaseForLocked(session);
      if session.state == SessionState.Running || phase == LifecyclePhase.Running { return Refused(InvalidState); }
      if phase == LifecyclePhase.Starting { return Refused(InvalidState); }
      if phase == LifecyclePhase.Stopping { return Refused(InvalidState); }
      phases := phases[id := LifecyclePhase.Starting];
      return Claimed(session);
    }

    method OpenStop(id: SessionId) returns (opening: Opening)
      modifies this
      ensures opening == Open(old(View()), Stop, id)
      ensures View() == Claim(old(View()), Stop, id)
    {
      var loaded := repository.Get(id);
      if loaded.None? { return Refused(NotFound); }
      var session := loaded.value;
      var phase := PhaseForLocked(session);
      if phase == LifecyclePhase.Stopping { return Refused(InvalidState); }
      if phase == LifecyclePhase.Starting { return Refused(InvalidState); }
      if session.state == SessionState.Stopped && phase == LifecyclePhase.Idle { return AlreadyStopped(session); }
      phases := phases[id := LifecyclePhase.Stopping];
      return Claimed(session);
    }

    method OpenRestart(id: SessionId) returns (opening: Opening)
      modifies this
      ensures opening == Open(old(View()), Restart, id)
      ensures View() == Claim(old(View()), Restart, id)
    {
      var loaded := repository.Get(id);
      if loaded.None? { return Refused(NotFound); }
      var phase := PhaseForLocked(loaded.value);
      if phase == LifecyclePhase.Stopping { return Refused(InvalidState); }
      if phase == LifecyclePhase.Starting { return Refused(InvalidState); }
      phases := phases[id := LifecyclePhase.Starting];
      return Claimed(loaded.value);
    }

    method OpenRemove(id: SessionId) returns (opening: Opening)
      modifies this
      ensures opening == Open(old(View()), Remove, id)
      ensures View() == Claim(old(View()), Remove, id)
    {
      var loaded := repository.Get(id);
      if loaded.None? { return Refused(NotFound); }
      var phase := PhaseForLocked(loaded.value);
      if phase == LifecyclePhase.Stopping { return Refused(InvalidState); }
      if phase == LifecyclePhase.Starting { return Refused(InvalidState); }
      phases := phases[id := LifecyclePhase.Stopping];
      return Claimed(loaded.value);
    }

    /** The closing section shared by start, stop and restart: reload, settle, store with the new phase. */
    method CloseSettled(operation: Operation, id: SessionId) returns (closed: Result<Session, ServiceError>)
      requires !operation.Remove?
      requires forall other :: other in repository.sessions ==> repository.sessions[other].id == other
      modifies this, repository
      ensures View() == Conclude(old(View()), operation, id)
      ensures closed == if id in old(repository.sessions) then Ok(Concluded(old(repository.sessions)[id], operation))
                        else Err(NotFound)
    {
      var loaded := repository.Get(id);
      if loaded.None? { return Err(NotFound); }
      var state := if operation.Stop? then SessionState.Stopped else SessionState.Running;
      var session := loaded.value.(state := state, lastError := None);
      var _ := repository.Update(session);
      phases := phases[session.id := if operation.Stop? then LifecyclePhase.Idle else LifecyclePhase.Running];
      return Ok(session);
    }

    method CloseRemoved(id: SessionId) returns (closed: Result<(), ServiceError>)
      modifies this, repository
      ensures View() == Conclude(old(View()), Remove, id)
      ensures closed == if id in old(repository.sessions) then Ok(()) else Err(NotFound)
    {
      var removed := repository.Remove(id);
      if !removed {
        assert repository.sessions == old(repository.sessions);
        return Err(NotFound);
      }
      phases := phases - {id};
      return Ok(());
    }

    /** Never returns normally: the error it throws is the result. */
    method RecordRuntimeFailure(id: SessionId, message: string) returns (error: ServiceError)
      requires forall other :: other in repository.sessions ==> repository.sessions[other].id == other
      modifies this, repository
      ensures View() == RecordFailure(old(View()), id, message)
      ensures error == if id in old(repository.sessions) then RuntimeFailure else NotFound
    {
      var loaded := repository.Get(id);
      if loaded.None? { return NotFound; }
      var session := loaded.value.(state := SessionState.Error, lastError := Some(message));
      var _ := repository.Update(session);
      phases := phases[session.id := LifecyclePhase.Failed];
      return RuntimeFailure;
    }

    /**
     * Fetching retries while the stream's server cannot be reached, at most twenty times. `answers(k)`
     * is what the runtime does on attempt k. It returns the number of attempts made; the last one decides.
     */
    method FetchHttpStream(id: SessionId, answers: nat -> FetchAnswer)
      returns (fetched: Result<string, ServiceError>, attempts: nat)
      ensures id !in repository.sessions ==> fetched == Err(NotFound) && attempts == 0
      ensures id in repository.sessions && !ServesStreams(View(), repository.sessions[id]) ==>
        fetched == Err(InvalidState) && attempts == 0
      ensures id in repository.sessions && ServesStreams(View(), repository.sessions[id]) ==>
        && 0 < attempts <= 20
        && (forall k :: 0 <= k < attempts - 1 ==> answers(k).Unreachable?)
        && (attempts < 20 ==> !answers(attempts - 1).Unreachable?)
        && fetched == if answers(attempts - 1).Responds? then Ok(answers(attempts - 1).response) else Err(RuntimeFailure)
    {
      attempts := 0;
      var loaded := repository.Get(id);
      if loaded.None? { return Err(NotFound), 0; }
      if loaded.value.state != SessionState.Running || PhaseForLocked(loaded.value) != LifecyclePhase.Running {
        return Err(InvalidState), 0;
      }
      while attempts < FETCH_RETRIES
        invariant attempts < FETCH_RETRIES
        invariant forall k :: 0 <= k < attempts ==> answers(k).Unreachable?
      {
        var answer := answers(attempts);
        attempts := attempts + 1;
        if answer.Responds? { return Ok(answer.response), attempts; }
        if attempts == FETCH_RETRIES || !answer.Unreachable? { return Err(RuntimeFailure), attempts; }
      }
      assert false;
      fetched := Err(RuntimeFailure);
    }
  }
}
