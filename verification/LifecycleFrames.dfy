/** What the steps of the lifecycle leave alone, position by position. */
module LifecycleFrames {
  import opened Pmt
  import opened Sessions
  import opened SessionStreams
  import opened StreamBindings
  import opened SessionServices
  import opened Lifecycle

  /** A place at which a thread neither builds a binding list, nor is about to, nor runs the bootstrap. */
  predicate QuietPlace(at: Position) {
    && !at.InOnce? && !at.Allocating? && !at.Loading? && !at.Undoing?
    && !(at.Releasing? && at.next.ThenAllocate?)
  }

  /** A step that moves its thread to a quiet place and changes no port, no binding and not the once-flag. */
  ghost predicate Quiet(s: State, s': State, t: ThreadId) {
    && t in s'.threads && s'.threads == s.threads[t := s'.threads[t]]
    && s'.once == s.once && s'.ports == s.ports && s'.leaked == s.leaked
    && (forall ref :: ref in s.store ==>
          && ref in s'.store
          && s'.store[ref].bindings == s.store[ref].bindings && s'.store[ref].released == s.store[ref].released)
    && (forall ref :: ref in s'.store ==>
          && (s'.store[ref].execution.Some? ==> ref in s.store && s.store[ref].execution.Some?)
          && (ref !in s.store ==> s'.store[ref].bindings == [] && s'.store[ref].released == 0))
    && (IsWorking(s', t) ==> QuietPlace(s'.threads[t].at))
    && (IsWorking(s, t) && IsWorking(s', t) && !s.threads[t].at.Fetched? ==> s'.threads[t].receipt == s.threads[t].receipt)
  }

  lemma BetweenIsQuiet(s: State, t: ThreadId)
    requires IsWorking(s, t) && s.threads[t].at.Between? && forall ref :: ref in s.store ==> ref < s.nextRef
    ensures Quiet(s, StepBetween(s, t), t)
  {
    hide Conclude;
    var id := s.threads[t].session.id;
    if s.threads[t].calls != [] && id !in s.table && (s.threads[t].calls[0].PrepareCall? || s.threads[t].calls[0].StartCall?) {
      hide Quiet;
      NewResourcesAreQuiet(s, t, id);
    } else {
      assert StepBetween(s, t).store == s.store;
    }
  }

  lemma NewResourcesAreQuiet(s: State, t: ThreadId, id: SessionId)
    requires IsWorking(s, t) && s.threads[t].at.Between? && forall ref :: ref in s.store ==> ref < s.nextRef
    ensures Quiet(s, MoveTo(s.(table := s.table[id := s.nextRef], store := s.store[s.nextRef := FreshResources(id)],
                              nextRef := s.nextRef + 1), t, Fetched(s.nextRef)), t)
  {
  }

  lemma FetchedIsQuiet(s: State, t: ThreadId, ref: Ref)
    requires IsWorking(s, t) && s.threads[t].at == Fetched(ref) && ref in s.store
    ensures Quiet(s, StepFetched(s, t, ref), t)
  {
    hide PortsOf;
  }

  /** A step of a body that keeps the bindings of its resources. */
  lemma BodyIsQuiet(s: State, s': State, t: ThreadId, ref: Ref)
    requires t in s'.threads && s'.threads == s.threads[t := s'.threads[t]] && ref in s.store && ref in s'.store
    requires s'.once == s.once && s'.ports == s.ports && s'.leaked == s.leaked
    requires s'.store == s.store || s'.store == s.store[ref := s'.store[ref]]
    requires s'.store[ref].bindings == s.store[ref].bindings && s'.store[ref].released == s.store[ref].released
    requires s'.store[ref].execution.Some? ==> s.store[ref].execution.Some?
    requires IsWorking(s', t) ==> QuietPlace(s'.threads[t].at)
    requires IsWorking(s, t) && IsWorking(s', t) ==> s'.threads[t].receipt == s.threads[t].receipt
    ensures Quiet(s, s', t)
  {
  }

  lemma EnteredIsQuiet(yaml: Yaml, s: State, t: ThreadId, ref: Ref)
    requires IsWorking(s, t) && s.threads[t].at == Entered(ref) && s.threads[t].calls != [] && ref in s.store
    ensures Quiet(s, StepEntered(yaml, s, t, ref), t)
  {
    hide ContractErrorOf, Quiet;
    BodyIsQuiet(s, StepEntered(yaml, s, t, ref), t, ref);
  }

  lemma PreparedIsQuiet(s: State, t: ThreadId, ref: Ref)
    requires IsWorking(s, t) && s.threads[t].at == Prepared(ref) && s.threads[t].calls != [] && ref in s.store
    requires s.store[ref].execution.Some?
    ensures Quiet(s, StepPrepared(s, t, ref), t)
  {
    hide Quiet;
    BodyIsQuiet(s, StepPrepared(s, t, ref), t, ref);
  }

  lemma SchedulerStartingIsQuiet(s: State, t: ThreadId, ref: Ref, answer: Answer)
    requires IsWorking(s, t) && s.threads[t].at == SchedulerStarting(ref) && s.threads[t].calls != [] && ref in s.store
    requires s.store[ref].execution.Some?
    ensures Quiet(s, StepSchedulerStarting(s, t, ref, answer), t)
  {
    hide Quiet;
    BodyIsQuiet(s, StepSchedulerStarting(s, t, ref, answer), t, ref);
  }

  lemma SchedulerStoppingIsQuiet(s: State, t: ThreadId, ref: Ref, answer: Answer)
    requires IsWorking(s, t) && s.threads[t].at == SchedulerStopping(ref) && ref in s.store && s.store[ref].execution.Some?
    ensures Quiet(s, StepSchedulerStopping(s, t, ref, answer), t)
  {
    hide Quiet;
    BodyIsQuiet(s, StepSchedulerStopping(s, t, ref, answer), t, ref);
  }

  lemma TorndownIsQuiet(s: State, t: ThreadId, ref: Ref)
    requires IsWorking(s, t) && s.threads[t].at == Torndown(ref) && s.threads[t].calls != [] && ref in s.store
    ensures Quiet(s, StepTorndown(s, t, ref), t)
  {
    hide Quiet;
    BodyIsQuiet(s, StepTorndown(s, t, ref), t, ref);
  }

  lemma ErasingIsQuiet(s: State, t: ThreadId, ref: Ref)
    requires IsWorking(s, t) && s.threads[t].at == Erasing(ref) && s.threads[t].calls != []
    ensures Quiet(s, StepErasing(s, t, ref), t)
  {
  }

  lemma RaisedIsQuiet(s: State, t: ThreadId)
    requires IsWorking(s, t) && s.threads[t].at.Raised?
    ensures Quiet(s, StepRaised(s, t), t)
  {
    hide RecordFailure, FailureMessage;
  }

  /** The positions from which every step is quiet. */
  predicate Resting(at: Position) {
    || at.Between? || at.Fetched? || at.Entered? || at.Prepared? || at.SchedulerStarting? || at.SchedulerStopping?
    || at.Torndown? || at.Erasing? || at.Raised?
  }

  lemma RestingIsQuiet(yaml: Yaml, s: State, t: ThreadId, answer: Answer)
    requires Enabled(s, Advance(t, answer)) && IsWorking(s, t) && Resting(s.threads[t].at)
    requires forall ref :: ref in s.store ==> ref < s.nextRef
    ensures Quiet(s, StepWorking(yaml, s, t, answer), t)
  {
    hide Quiet, StepBetween, StepFetched, StepEntered, StepPrepared, StepSchedulerStarting, StepSchedulerStopping, StepTorndown,
         StepErasing, StepRaised;
    match s.threads[t].at {
      case Between => BetweenIsQuiet(s, t);
      case Fetched(ref) => FetchedIsQuiet(s, t, ref);
      case Entered(ref) => EnteredIsQuiet(yaml, s, t, ref);
      case Prepared(ref) => PreparedIsQuiet(s, t, ref);
      case SchedulerStarting(ref) => SchedulerStartingIsQuiet(s, t, ref, answer);
      case SchedulerStopping(ref) => SchedulerStoppingIsQuiet(s, t, ref, answer);
      case Torndown(ref) => TorndownIsQuiet(s, t, ref);
      case Erasing(ref) => ErasingIsQuiet(s, t, ref);
      case Raised => RaisedIsQuiet(s, t);
    }
  }

  lemma ReadingIsQuiet(s: State, t: ThreadId)
    requires t in s.threads && s.threads[t].Reading? && WellPlaced(s, s.threads[t])
    ensures Quiet(s, StepReading(s, t), t)
  {
    hide Answered;
  }

  lemma BeginningIsQuiet(s: State, s': State, t: ThreadId)
    requires t in s'.threads && s' == s.(service := s'.service, threads := s.threads[t := s'.threads[t]])
    requires Free(s, t) && (s'.threads[t].Working? ==> s'.threads[t].at.Between?)
    ensures Quiet(s, s', t)
  {
  }
}
