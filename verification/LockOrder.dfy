/**
 * The mutexes behind the steps of Lifecycle, made explicit. Threads run sequences of critical
 * sections; the only nestings are the service mutex over the repository's, and a session's mutex over
 * the allocator's or over the process-wide once-flag of the plugin bootstrap.
 */
module LockOrder {
  datatype Lock =
    | ServiceMutex
    | RepositoryMutex
    | TableMutex
    | SessionMutex(ref: nat)
    | AllocatorMutex
    | OnceFlag

  /** What a thread may wait for while it holds these locks. */
  predicate MayTake(held: set<Lock>, lock: Lock) {
    match lock
    case RepositoryMutex => held == {} || held == {ServiceMutex}
    case AllocatorMutex => HoldsOneSession(held)
    case OnceFlag => HoldsOneSession(held)
    case _ => held == {}
  }

  predicate HoldsOneSession(held: set<Lock>) {
    exists lock :: lock in held && lock.SessionMutex? && held == {lock}
  }

  datatype Action = Acquire(lock: Lock) | Release(lock: Lock) | Work

  // ----- the critical sections of the code -----

  /**
   * What a body under a session's mutex does between taking and leaving it. A bootstrap call takes the
   * once-flag, to run the bootstrap or to wait for its end; calls that find it done need no flag.
   */
  datatype BodyAction = AllocatorCall | BootstrapCall | EnvironmentCall

  datatype Section =
    | Opening                                     // load the session, claim its phase
    | Closing                                     // load, update and store; or remove
    | Listing                                     // a read that needs no runtime
    | SettingsCheck                               // reads the repository without the service mutex
    | Lookup                                      // get_or_create_resources, find_resources
    | Body(ref: nat, actions: seq<BodyAction>)    // prepare, start, stop, destroy, and every reader
    | Erase                                       // the end of destroy

  function BodyActions(actions: seq<BodyAction>): seq<Action> {
    if actions == [] then []
    else BodyStep(actions[0]) + BodyActions(actions[1..])
  }

  function BodyStep(action: BodyAction): seq<Action> {
    match action
    case AllocatorCall => [Acquire(AllocatorMutex), Work, Release(AllocatorMutex)]
    case BootstrapCall => [Acquire(OnceFlag), Work, Release(OnceFlag)]
    case EnvironmentCall => [Work]
  }

  const REPOSITORY_CALL: seq<Action> := [Acquire(RepositoryMutex), Release(RepositoryMutex)]

  function Actions(section: Section): seq<Action> {
    match section
    case Opening => [Acquire(ServiceMutex)] + REPOSITORY_CALL + [Release(ServiceMutex)]
    case Closing => [Acquire(ServiceMutex)] + REPOSITORY_CALL + REPOSITORY_CALL + [Release(ServiceMutex)]
    case Listing => [Acquire(ServiceMutex)] + REPOSITORY_CALL + [Release(ServiceMutex)]
    case SettingsCheck => REPOSITORY_CALL
    case Lookup => [Acquire(TableMutex), Release(TableMutex)]
    case Body(ref, actions) => [Acquire(SessionMutex(ref))] + BodyActions(actions) + [Release(SessionMutex(ref))]
    case Erase => [Acquire(TableMutex), Release(TableMutex)]
  }

  function Program(sections: seq<Section>): seq<Action> {
    if sections == [] then [] else Actions(sections[0]) + Program(sections[1..])
  }

  // ----- the locking machine -----

  datatype LockThread = LockThread(held: set<Lock>, rest: seq<Action>)

  type LockState = map<nat, LockThread>

  ghost predicate MutuallyExclusive(s: LockState) {
    forall t, u, lock :: t in s && u in s && lock in s[t].held && lock in s[u].held ==> t == u
  }

  ghost predicate IsFree(s: LockState, lock: Lock) {
    forall t :: t in s ==> lock !in s[t].held
  }

  ghost predicate CanStep(s: LockState, t: nat) {
    && t in s && s[t].rest != []
    && (s[t].rest[0].Acquire? ==> IsFree(s, s[t].rest[0].lock))
  }

  function After(th: LockThread): LockThread
    requires th.rest != []
  {
    match th.rest[0]
    case Acquire(lock) => LockThread(th.held + {lock}, th.rest[1..])
    case Release(lock) => LockThread(th.held - {lock}, th.rest[1..])
    case Work => LockThread(th.held, th.rest[1..])
  }

  ghost predicate LockStep(s: LockState, s': LockState) {
    exists t :: CanStep(s, t) && s' == s[t := After(s[t])]
  }

  /** From here on the thread takes locks in the order of MayTake, releases what it holds, and ends with none. */
  predicate Disciplined(held: set<Lock>, rest: seq<Action>)
    decreases |rest|
  {
    if rest == [] then held == {}
    else match rest[0]
      case Acquire(lock) => MayTake(held, lock) && Disciplined(held + {lock}, rest[1..])
      case Release(lock) => lock in held && Disciplined(held - {lock}, rest[1..])
      case Work => Disciplined(held, rest[1..])
  }

  ghost predicate LockInv(s: LockState) {
    MutuallyExclusive(s) && forall t :: t in s ==> Disciplined(s[t].held, s[t].rest)
  }

  // ----- every program of the code is disciplined -----

  lemma {:induction false} BodyIsDisciplined(ref: nat, actions: seq<BodyAction>, rest: seq<Action>)
    requires Disciplined({}, rest)
    ensures Disciplined({SessionMutex(ref)}, BodyActions(actions) + ([Release(SessionMutex(ref))] + rest))
  {
    var held := {SessionMutex(ref)};
    var tail := [Release(SessionMutex(ref))] + rest;
    if actions == [] {
      assert BodyActions(actions) + tail == tail;
      assert tail[1..] == rest && held - {SessionMutex(ref)} == {};
    } else {
      BodyIsDisciplined(ref, actions[1..], rest);
      var later := BodyActions(actions[1..]) + tail;
      assert BodyActions(actions) + tail == BodyStep(actions[0]) + later;
      match actions[0] {
        case AllocatorCall => InnerIsDisciplined(ref, AllocatorMutex, later);
        case BootstrapCall => InnerIsDisciplined(ref, OnceFlag, later);
        case EnvironmentCall => assert ([Work] + later)[1..] == later;
      }
    }
  }

  /** A call that takes a lock of its own under a session's mutex. */
  lemma InnerIsDisciplined(ref: nat, lock: Lock, rest: seq<Action>)
    requires Disciplined({SessionMutex(ref)}, rest) && (lock.AllocatorMutex? || lock.OnceFlag?)
    ensures Disciplined({SessionMutex(ref)}, [Acquire(lock), Work, Release(lock)] + rest)
  {
    var held := {SessionMutex(ref)};
    var all := [Acquire(lock), Work, Release(lock)] + rest;
    assert all[1..] == [Work, Release(lock)] + rest && all[1..][1..] == [Release(lock)] + rest && all[1..][1..][1..] == rest;
    assert held + {lock} - {lock} == held;
    assert SessionMutex(ref) in held && HoldsOneSession(held);
    assert Disciplined(held + {lock}, [Release(lock)] + rest);
    assert Disciplined(held + {lock}, all[1..]);
  }

  lemma RepositoryCallIsDisciplined(held: set<Lock>, rest: seq<Action>)
    requires Disciplined(held, rest) && (held == {} || held == {ServiceMutex})
    ensures Disciplined(held, REPOSITORY_CALL + rest)
  {
    var all := REPOSITORY_CALL + rest;
    assert all[1..] == [Release(RepositoryMutex)] + rest && all[1..][1..] == rest;
    assert held + {RepositoryMutex} - {RepositoryMutex} == held;
  }

  lemma PairIsDisciplined(lock: Lock, rest: seq<Action>)
    requires Disciplined({}, rest) && MayTake({}, lock)
    ensures Disciplined({lock}, [Release(lock)] + rest)
    ensures Disciplined({}, [Acquire(lock), Release(lock)] + rest)
  {
    var tail := [Release(lock)] + rest;
    assert tail[1..] == rest && {lock} - {lock} == {};
    var all := [Acquire(lock), Release(lock)] + rest;
    assert all[1..] == tail && {} + {lock} == {lock};
  }

  lemma SectionIsDisciplined(section: Section, rest: seq<Action>)
    requires Disciplined({}, rest)
    ensures Disciplined({}, Actions(section) + rest)
  {
    hide Disciplined;
    match section {
      case Lookup => PairIsDisciplined(TableMutex, rest);
      case Erase => PairIsDisciplined(TableMutex, rest);
      case SettingsCheck => RepositoryCallIsDisciplined({}, rest);
      case Body(ref, actions) =>
        BodyIsDisciplined(ref, actions, rest);
        AcquireIsDisciplined(SessionMutex(ref), BodyActions(actions) + ([Release(SessionMutex(ref))] + rest));
        assert Actions(section) + rest == [Acquire(SessionMutex(ref))] + (BodyActions(actions) + ([Release(SessionMutex(ref))] + rest));
      case _ => ServiceSectionIsDisciplined(section, rest);
    }
  }

  lemma ServiceSectionIsDisciplined(section: Section, rest: seq<Action>)
    requires Disciplined({}, rest) && (section.Opening? || section.Closing? || section.Listing?)
    ensures Disciplined({}, Actions(section) + rest)
  {
    hide Disciplined;
    PairIsDisciplined(ServiceMutex, rest);
    var tail := [Release(ServiceMutex)] + rest;
    RepositoryCallIsDisciplined({ServiceMutex}, tail);
    if section.Closing? {
      RepositoryCallIsDisciplined({ServiceMutex}, REPOSITORY_CALL + tail);
      AcquireIsDisciplined(ServiceMutex, REPOSITORY_CALL + (REPOSITORY_CALL + tail));
      assert Actions(section) + rest == [Acquire(ServiceMutex)] + (REPOSITORY_CALL + (REPOSITORY_CALL + tail));
    } else {
      AcquireIsDisciplined(ServiceMutex, REPOSITORY_CALL + tail);
      assert Actions(section) + rest == [Acquire(ServiceMutex)] + (REPOSITORY_CALL + tail);
    }
  }

  lemma AcquireIsDisciplined(lock: Lock, rest: seq<Action>)
    requires Disciplined({lock}, rest) && MayTake({}, lock)
    ensures Disciplined({}, [Acquire(lock)] + rest)
  {
    assert ([Acquire(lock)] + rest)[1..] == rest && {} + {lock} == {lock};
  }

  /** Any sequence of critical sections takes its locks in the order of MayTake and ends holding none. */
  lemma {:induction false} ProgramsAreDisciplined(sections: seq<Section>)
    ensures Disciplined({}, Program(sections))
  {
    if sections != [] {
      ProgramsAreDisciplined(sections[1..]);
      SectionIsDisciplined(sections[0], Program(sections[1..]));
    }
  }

  // ----- what discipline gives -----

  lemma LockStepKeeps(s: LockState, s': LockState)
    requires LockInv(s) && LockStep(s, s')
    ensures LockInv(s')
  {
    var t :| CanStep(s, t) && s' == s[t := After(s[t])];
    assert Disciplined(s[t].held, s[t].rest);
  }

  ghost predicate OnlySessionMutexes(held: set<Lock>) {
    forall lock :: lock in held ==> lock.SessionMutex?
  }

  /** The thread that holds a mutex some other thread waits for. */
  ghost predicate WaitsFor(s: LockState, t: nat, u: nat) {
    && t in s && u in s && s[t].rest != [] && s[t].rest[0].Acquire? && s[t].rest[0].lock in s[u].held
  }

  /** A thread with work left steps, or waits for one that steps, or waits for one that waits for one that steps. */
  ghost predicate LeadsTo(s: LockState, t: nat, v: nat) {
    v == t || WaitsFor(s, t, v) || exists u :: WaitsFor(s, t, u) && WaitsFor(s, u, v)
  }

  /** A thread that holds an inner lock waits for nothing. */
  lemma InnerHoldersStep(s: LockState, v: nat, lock: Lock)
    requires LockInv(s) && v in s && lock in s[v].held
    requires lock.RepositoryMutex? || lock.AllocatorMutex? || lock.OnceFlag?
    ensures CanStep(s, v)
  {
    assert Disciplined(s[v].held, s[v].rest);
  }

  /**
   * Deadlock freedom, with some threads stuck inside calls to the environment. As long as the stuck
   * threads hold at most session mutexes, so that none is stuck in the bootstrap, every other
   * unfinished thread either waits for a session mutex that a stuck thread holds, or can step, or
   * waits (at most twice over) for an unstuck thread that can step.
   */
  lemma UnstuckThreadsProceed(s: LockState, stuck: set<nat>, t: nat)
    requires LockInv(s) && t in s && s[t].rest != [] && t !in stuck
    requires forall u :: u in stuck && u in s ==> OnlySessionMutexes(s[u].held)
    requires forall u :: u in stuck ==> !WaitsFor(s, t, u)
    ensures exists v :: v !in stuck && CanStep(s, v) && LeadsTo(s, t, v)
  {
    assert Disciplined(s[t].held, s[t].rest);
    if !CanStep(s, t) {
      var u :| u in s && s[t].rest[0].lock in s[u].held;
      assert WaitsFor(s, t, u) && Disciplined(s[u].held, s[u].rest);
      assert u !in stuck && LeadsTo(s, t, u);
      if !CanStep(s, u) {
        var v :| v in s && s[u].rest[0].lock in s[v].held;
        assert WaitsFor(s, u, v);
        InnerHoldersStep(s, v, s[u].rest[0].lock);
        assert LeadsTo(s, t, v);
        assert !OnlySessionMutexes(s[v].held);
      }
    }
  }

  /** With nobody stuck, some thread can step until all are done. */
  lemma NoDeadlock(s: LockState)
    requires LockInv(s) && exists t :: t in s && s[t].rest != []
    ensures exists v :: CanStep(s, v)
  {
    var t :| t in s && s[t].rest != [];
    UnstuckThreadsProceed(s, {}, t);
  }

  /** A thread that still takes this lock. */
  ghost predicate StillTakes(th: LockThread, lock: Lock) {
    exists i :: 0 <= i < |th.rest| && th.rest[i] == Acquire(lock)
  }

  /**
   * Sessions are independent while nobody is stuck in the bootstrap: a thread that takes no session
   * mutex of a stuck thread proceeds, though others are stuck in runtime calls of their sessions.
   */
  lemma SessionsAreIndependent(s: LockState, stuck: set<nat>, t: nat)
    requires LockInv(s) && t in s && s[t].rest != [] && t !in stuck
    requires forall u :: u in stuck && u in s ==> OnlySessionMutexes(s[u].held)
    requires forall u, lock :: u in stuck && u in s && lock in s[u].held ==> !StillTakes(s[t], lock)
    ensures exists v :: v !in stuck && CanStep(s, v) && LeadsTo(s, t, v)
  {
    forall u | u in stuck && WaitsFor(s, t, u) ensures false {
      assert s[t].rest[0] == Acquire(s[t].rest[0].lock);
      assert StillTakes(s[t], s[t].rest[0].lock);
    }
    UnstuckThreadsProceed(s, stuck, t);
  }

  /**
   * The bootstrap is the exception: with one session's prepare stuck in it, the first prepare of
   * another session waits at the once-flag, holding its own session's mutex, and nobody else can move.
   */
  lemma BootstrapStopsOtherSessions() returns (s: LockState)
    ensures LockInv(s) && s.Keys == {0, 1}
    ensures s[0].held == {SessionMutex(0), OnceFlag} && s[1].held == {SessionMutex(1)}
    ensures s[1].rest != [] && !StillTakes(s[1], SessionMutex(0)) && WaitsFor(s, 1, 0)
    ensures forall v :: CanStep(s, v) ==> v == 0
  {
    var body0 := [Work, Release(OnceFlag), Release(SessionMutex(0))];
    var body1 := [Acquire(OnceFlag), Work, Release(OnceFlag), Release(SessionMutex(1))];
    s := map[0 := LockThread({SessionMutex(0), OnceFlag}, body0), 1 := LockThread({SessionMutex(1)}, body1)];
    LastActions(0);
    PrepareActions(1);
    assert s[0].rest == body0 && s[1].rest == body1;
    assert {SessionMutex(0)} + {OnceFlag} == {SessionMutex(0), OnceFlag};
  }

  lemma LastActions(ref: nat)
    ensures Disciplined({SessionMutex(ref), OnceFlag}, [Work, Release(OnceFlag), Release(SessionMutex(ref))])
    ensures Disciplined({SessionMutex(ref)}, [Release(SessionMutex(ref))])
  {
    var end := [Release(SessionMutex(ref))];
    assert end[1..] == [] && {SessionMutex(ref)} - {SessionMutex(ref)} == {};
    var all := [Work, Release(OnceFlag), Release(SessionMutex(ref))];
    assert all[1..] == [Release(OnceFlag)] + end && all[1..][1..] == end;
    assert {SessionMutex(ref), OnceFlag} - {OnceFlag} == {SessionMutex(ref)};
    assert Disciplined({SessionMutex(ref)}, end);
    assert Disciplined({SessionMutex(ref), OnceFlag}, all[1..]);
  }

  lemma PrepareActions(ref: nat)
    ensures Disciplined({SessionMutex(ref)}, [Acquire(OnceFlag), Work, Release(OnceFlag), Release(SessionMutex(ref))])
  {
    LastActions(ref);
    var end := [Release(SessionMutex(ref))];
    InnerIsDisciplined(ref, OnceFlag, end);
    assert [Acquire(OnceFlag), Work, Release(OnceFlag)] + end == [Acquire(OnceFlag), Work, Release(OnceFlag), Release(SessionMutex(ref))];
  }

  /** A lock that is only held inside runtime calls. */
  predicate RuntimeLock(lock: Lock) {
    lock.SessionMutex? || lock.AllocatorMutex? || lock.OnceFlag?
  }

  /** The service's own sections never wait for a stuck runtime call, not even for one stuck in the bootstrap. */
  lemma ServiceReadsNeverWaitForTheRuntime(s: LockState, stuck: set<nat>, t: nat)
    requires LockInv(s) && t in s && t !in stuck && s[t].rest != []
    requires forall u, lock :: u in stuck && u in s && lock in s[u].held ==> RuntimeLock(lock)
    requires forall lock :: StillTakes(s[t], lock) ==> !RuntimeLock(lock)
    ensures exists v :: v !in stuck && CanStep(s, v) && LeadsTo(s, t, v)
  {
    if !CanStep(s, t) {
      var lock := s[t].rest[0].lock;
      assert s[t].rest[0] == Acquire(lock) && StillTakes(s[t], lock);
      var u :| u in s && lock in s[u].held;
      assert WaitsFor(s, t, u) && LeadsTo(s, t, u) && u !in stuck;
      if !CanStep(s, u) {
        assert Disciplined(s[u].held, s[u].rest);
        assert MayTake(s[u].held, s[u].rest[0].lock) && s[u].rest[0].lock.RepositoryMutex?;
        var v :| v in s && RepositoryMutex in s[v].held;
        assert WaitsFor(s, u, v);
        assert LeadsTo(s, t, v);
        assert !RuntimeLock(RepositoryMutex);
        InnerHoldersStep(s, v, RepositoryMutex);
      }
    }
  }

  // ----- runs -----

  ghost predicate IsLockRun(states: seq<LockState>) {
    && |states| > 0
    && (forall t :: t in states[0] ==> states[0][t].held == {} && exists sections :: states[0][t].rest == Program(sections))
    && (forall i :: 0 <= i < |states| - 1 ==> LockStep(states[i], states[i + 1]))
  }

  /** No run of any threads over any critical sections of the code reaches a state in which all unfinished threads wait. */
  lemma {:induction false} RunsNeverDeadlock(states: seq<LockState>, i: nat)
    requires IsLockRun(states) && i < |states|
    ensures LockInv(states[i])
    ensures (exists t :: t in states[i] && states[i][t].rest != []) ==> exists v :: CanStep(states[i], v)
  {
    if i == 0 {
      forall t | t in states[0] ensures Disciplined(states[0][t].held, states[0][t].rest) {
        var sections :| states[0][t].rest == Program(sections);
        ProgramsAreDisciplined(sections);
      }
    } else {
      RunsNeverDeadlock(states, i - 1);
      assert LockStep(states[i - 1], states[i]);
      LockStepKeeps(states[i - 1], states[i]);
    }
    if exists t :: t in states[i] && states[i][t].rest != [] {
      NoDeadlock(states[i]);
    }
  }
}
