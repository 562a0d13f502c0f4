# Verification of the session control plane

A Dafny model of the parts of this repository that decide whether a flow graph runs, over which ports,
and what a client is told about it, with proofs that these parts keep their promises under every
interleaving and on every input. `dafny verify dfyconfig.toml` checks everything.

## The lifecycle

`Lifecycle` is a transition system of the session service, the runtime manager and the port allocator
for any number of threads and sessions. One step is one critical section: an opening or closing
section under the service mutex, a table lookup, one allocator call, or one stretch of a body under a
session's own mutex between two calls out of it; the erase at the end of destroy is a step of its own.
Every call to the environment (plugin bootstrap, port offers, graph loading, scheduler start and stop)
returns or throws freely. `LifecycleInvariant` proves the state invariant, `LifecyclePorts` the port
ledger (over the frames in `LifecycleFrames`), `LifecycleTheorems` what follows for clients,
`LifecycleOperations` what a finished start, stop, restart or remove has done from its beginning to its
end, `LifecycleReaders` what readers are told,
`LifecycleProgress` the bounds on operations, and `LifecycleBootstrap` the once-flag of the plugin
bootstrap and who waits for whom. `LockOrder` makes the mutexes explicit and proves deadlock freedom,
and that sessions do not delay each other except in the bootstrap. The same sections and bodies are
methods on mutable objects in `SessionServices`, `StreamBindings`, `RuntimeResources` and
`RuntimeManagers`, whose contracts use the functions the transition system is made of. `LifecycleBodies`
closes the gap for the bodies that the transition system cuts into steps: uninterrupted, the steps
satisfy the very predicates that the methods ensure.

What is *not* guaranteed, because the code does otherwise: after a failed scheduler stop the session is
failed while its execution may still run and hold its ports, and a later start reuses that execution
(`LifecycleTheorems.ServiceAgreesWithRuntime` says what such a session holds); one session's prepare
that is stuck in the bootstrap stops the first prepare of every other
(`LockOrder.BootstrapStopsOtherSessions`); a reader that overlaps a restart can be told that nothing
runs when the session runs again (`LifecycleReaders.ARestartCanMissAReader`);
a failed scheduler start leaves the runtime phase at Starting; an allocation that throws inside the
prepare loop leaks the ports taken before it (`LifecycleTheorems.LeaksExactly` says exactly which);
the runtime alone, without the service's phases, can orphan an execution
(`LifecycleRace.OrphanWithoutTheGate`).

## The graph pipeline

`Pmt` holds the untyped tree, `SessionStreams` and `StreamContract` the planner and the contract,
`FlowGraphs` the normal forms and the injection as functions, `GraphRewriting` the in-place walks, and
`GraphTheorems` what they guarantee together. `AuthoredStreams` and `RewrittenGraphs` say what plan,
contract and rewritten graph are in terms of the authored keys and texts alone. Reading a graph text is a parameter of the model. Two
facts of the code that a reader may not expect: `out3` becomes 3 but `in3` stays a string, and planner
and runtime can name one block differently (`GraphTheorems.NamesAgreeIff` says exactly when). Which
accepted graphs can be loaded at all is `GraphTheorems.AcceptedSessionLoadsIff`.

## The rest

`BlockCatalog` is the browse catalogue. Where test/block_catalog_service_test.cpp:85-92 expects another
preference, the model follows src/app/block_catalog_service.cpp:46-48, which prefers the longer id.
`StreamRoutes` is the websocket route and its decoder, `JsonValues` and `BlockSettings` the settings
conversions, `Reflection` the descriptor payload and `ReflectionDocuments` its keys,
`TemplateArguments` the element-type scanner. The
guard for large unsigned settings (src/app/block_settings_service.cpp:88-94) is dead, because the JSON
library counts unsigned values among the integers tested at line 85; the model follows the code.

## Model

| member | source | states |
|---|---|---|
| `LifecycleInvariant.StepKeeps` | src/app/session_service.cpp:110-267 | Every step of every thread (opening and closing sections, lookups, each stretch of a runtime body, each allocator call, reads) keeps the invariant that ties repository, phases, resource table, resources and session mutexes together. |
| `LifecycleInvariant.RunKeeps` | src/runtime/gr4_runtime_manager.cpp:722-780 | The invariant holds in every state of every run, for any number of threads and sessions and any answers of the environment. |
| `LifecycleTheorems.ServiceStateIsConsistent` | src/app/session_service.cpp:48-91 | In every reachable state phases and repository have the same ids, `last_error` is present exactly in state Error, a settled phase matches the public state, and a phase is Starting or Stopping exactly while one thread operates on the session; never two threads on one session. |
| `LifecycleTheorems.LoadedPhaseIsRecorded` | src/app/session_service.cpp:48-64 | The phase an operation finds for a stored session is the recorded one, so the fallback for an unrecorded phase is never taken; unless an operation is in progress it is the phase that the public state stands for. |
| `LifecycleTheorems.ServiceAgreesWithRuntime` | src/runtime/gr4_runtime_manager.cpp:728-747 | With no operation in flight on a session: Running means its resources are in the table, execute, and serve the plan and the loaded graph of the stored session; Idle means no execution and no bindings; Failed means the same, or an execution that serves the stored graph over allocated ports of its own; only stored sessions have resources. |
| `LifecycleTheorems.RunningSessionsAreLoadable` | src/runtime/gr4_runtime_manager.cpp:583-615 | A running session has passed the stream contract, its port numbers are in range and its planned names are runtime names of its blocks. |
| `LifecycleTheorems.NoOrphanedRuntime` | src/runtime/gr4_runtime_manager.cpp:759-780 | Resources that are not in the table have no execution and hold no port, although destroy erases the entry after it has left the session mutex and starts may hold an earlier pointer. |
| `LifecycleTheorems.ClosingSectionsFindTheirSession` | src/app/session_service.cpp:139-267 | Every closing section finds its session, so its NotFound path is unreachable; the session becomes running, stopped, removed or failed with the message of the operation, with exactly these fields changed. |
| `LifecycleOperations.BeginIsDecided` | src/app/session_service.cpp:110-245 | What every beginning operation is told, in every reachable state: NotFound for an unknown session; InvalidState if another operation works on it, or for a start of a running one; nothing to do for a stop of a stopped one; otherwise the thread works on it, its phase says so and nothing else changes. |
| `LifecycleOperations.FinishedOperationMadeItsCalls` | src/app/session_service.cpp:110-260 | From its beginning to its success an operation has come back from exactly these runtime calls, in order: prepare and start for start; stop for stop; for restart destroy, prepare and start, and for remove destroy, both with a stop before if the session was found running. |
| `LifecycleOperations.ReturnedCallHasDone` | src/runtime/gr4_runtime_manager.cpp:722-780 | A runtime call that returns has done what its name says, under every interleaving: an execution is there after a prepare, runs after a start, is gone with its ports after a stop; the entry is gone after a destroy. |
| `LifecycleOperations.FinishedStart` | src/app/session_service.cpp:110-148 | A finished start leaves the session executing. An execution found at its beginning is kept, with graph, bindings and generation; otherwise one more has been built, in the resources found or in new ones. |
| `LifecycleOperations.FinishedRestart` | src/app/session_service.cpp:189-229 | A finished restart has passed a state in which the session had no entry and held nothing, and ends with the first execution of resources that were neither there at its beginning nor in that state. |
| `LifecycleOperations.FinishedStop` | src/app/session_service.cpp:150-187 | A finished stop leaves the session's resources in their place, with nothing running and nothing held, and builds nothing. |
| `LifecycleOperations.FinishedRemove` | src/app/session_service.cpp:231-267 | A finished remove leaves no record, no phase, no entry, and no resources of the session that hold anything. |
| `LifecycleTheorems.PortsHaveOneOwner` | src/runtime/gr4_runtime_manager.cpp:993-1032 | Across all sessions' bindings and all threads' half-built lists no port occurs twice; the allocator's set is exactly the listed ports and the leaked ones. |
| `LifecycleTheorems.OnlyOwnersRelease` | src/runtime/stream_binding_allocator.cpp:120-123 | A port leaves the allocator's set only by the thread that owns it, out of its own half-built list or of its session's resources whose mutex it holds and whose scheduler does not run; no other owner lists that port. |
| `LifecycleTheorems.LeaksExactly` | src/runtime/gr4_runtime_manager.cpp:994-1014 | A step leaks ports if and only if an allocation throws inside the loop, and then exactly the ports that prepare had taken before. |
| `LifecycleTheorems.StoppedSystemHoldsOnlyLeaks` | src/runtime/gr4_runtime_manager.cpp:1047-1093 | When no operation is in flight and every session is stopped, the allocated ports are exactly the leaked ones. |
| `LifecycleTheorems.TeardownReturnsExactlyItsPorts` | src/runtime/gr4_runtime_manager.cpp:1040-1085 | From taking the session's mutex to the end of a teardown, whatever other threads do, this thread's release steps take exactly the ports out of the allocator's set that the session held on entry, and nothing is held then; a call that throws has taken out none. |
| `LifecycleTheorems.ReceiptRecordsReleases` | src/runtime/gr4_runtime_manager.cpp:1040-1045 | At each step of the release loop the recorded ports grow by what the step takes out of the allocator's set, and by nothing at any other step of a body. |
| `LifecycleTheorems.FindBindingFinds` | src/runtime/gr4_runtime_manager.cpp:815-820 | The lookup returns a binding if and only if one with this stream id and kind of transport exists, and then one that fits. |
| `LifecycleReaders.ReadersSeeTheStoredSession` | src/runtime/gr4_runtime_manager.cpp:782-823 | Under every interleaving, a reader that takes the mutex of resources that are still the session's and execute gets the right answer for the session as stored: the derived plan exactly, a route exactly if the plan has such a stream of that kind, over a port that this session alone owns and with the endpoint of its transport. In every other case it gets nothing; a running session that nobody operates on executes. |
| `LifecycleReaders.ReadBegins` | src/app/session_service.cpp:269-324 | A read of a session goes on exactly if the session runs and, unless it is for settings, nobody operates on it; else it gets no plan, or the error of the code. |
| `LifecycleReaders.ReadLooks` | src/runtime/gr4_runtime_manager.cpp:972-976 | The lookup finds what the table has for the session, and otherwise ends the read with nothing. |
| `LifecycleReaders.UndisturbedRead` | src/runtime/gr4_runtime_manager.cpp:782-823 | A whole read of a running session on which nobody operates meanwhile ends with the right answer, whatever other threads do on other sessions. |
| `LifecycleReaders.ARestartCanMissAReader` | src/runtime/gr4_runtime_manager.cpp:782-799 | Without that condition it may not: a reader that looked the session up before a restart and takes the mutex after it is told nothing of a running session. |
| `LifecycleTheorems.OneKindOfRoutePerStream` | src/runtime/gr4_runtime_manager.cpp:857-877 | For one stream id the HTTP lookup and the websocket lookup never both succeed. |
| `LifecycleTheorems.RunningGraphHasItsEndpoints` | src/runtime/gr4_runtime_manager.cpp:1015-1023 | The graph loaded for a running session has, for every advertised stream, a block of the planned name whose endpoint is that of the session's own binding, and every binding is wired field by field as its transport asks: a websocket stream at `ws://127.0.0.1:<port>/stream`, any other at `http://127.0.0.1:<port>/snapshot`. |
| `LifecycleTheorems.RunningGraphIsTheStoredOne` | src/runtime/gr4_runtime_manager.cpp:583-615 | That graph is the stored one rewritten as GraphMeans describes; a text that is no graph is passed on as it is. |
| `LifecyclePorts.StepLedger` | src/runtime/gr4_runtime_manager.cpp:993-1045 | Every step does one of five things to the port ledger: nothing, one port taken, one given back, a list handed over to its session, a list abandoned. |
| `LifecyclePorts.LedgerStepKeeps` | src/runtime/stream_binding_allocator.cpp:76-123 | Each of the five keeps single ownership and the exact account of the allocated set. |
| `LifecyclePorts.RunPorts` | src/runtime/gr4_runtime_manager.cpp:993-1045 | The ledger invariant holds in every state of every run. |
| `LifecycleBootstrap.WaitingIsWithinOneSession` | src/runtime/gr4_runtime_manager.cpp:749-780 | Every unfinished thread can step whatever the environment answers, unless it waits for the mutex of its own session or for the bootstrap that another thread runs; the holder of such a mutex can step or waits for the bootstrap, and the thread that runs the bootstrap can step. |
| `LifecycleBootstrap.StepKeepsOnce` | src/runtime/gr4_runtime_manager.cpp:247-269 | Every step keeps the invariant of the bootstrap's once-flag: one thread at most runs the bootstrap, and nothing is built or executed unless it has succeeded. |
| `LifecycleBootstrap.RunKeepsOnce` | src/runtime/gr4_runtime_manager.cpp:247-269 | That invariant holds in every state of every run. |
| `LifecycleBootstrap.BootstrapEndsOnce` | src/runtime/gr4_runtime_manager.cpp:247-269 | A bootstrap that has ended is never run again; if it failed, no session has an execution at any later moment. |
| `LifecycleProgress.OwnStepSpendsBudget` | src/runtime/gr4_runtime_manager.cpp:978-1093 | Each own step of an operation lowers its step budget. |
| `LifecycleProgress.OthersKeepBudget` | src/runtime/gr4_runtime_manager.cpp:978-1093 | No step of another thread raises it. |
| `LifecycleProgress.OperationsAreBounded` | src/runtime/gr4_runtime_manager.cpp:978-1093 | Under every interleaving an operation takes at most as many own steps as its budget: no livelock. |
| `LifecycleProgress.NewOperationBudget` | src/app/session_service.cpp:189-209 | For a graph of n planned streams that budget is at most 4(2n+11)+1. |
| `LifecycleRace.OrphanWithoutTheGate` | src/runtime/gr4_runtime_manager.cpp:728-780 | The runtime alone does not prevent orphans: from a state where a start and a destroy of one session are about to look it up, which the service's phases exclude, its own steps lead to a live execution that no table entry points to. |
| `LockOrder.ProgramsAreDisciplined` | src/app/session_service.cpp:112-147 | Any sequence of the code's critical sections takes its locks in the stated order (the service mutex over the repository's; a session's mutex over the allocator's or over the once-flag of the bootstrap, run at lines 251 and 991 of src/runtime/gr4_runtime_manager.cpp; nothing else nested) and ends holding none. |
| `LockOrder.LockStepKeeps` | src/runtime/gr4_runtime_manager.cpp:962-976 | A step of the locking machine keeps mutual exclusion and discipline. |
| `LockOrder.UnstuckThreadsProceed` | src/runtime/gr4_runtime_manager.cpp:749-780 | With some threads stuck that hold at most session mutexes, so not in the bootstrap, every other unfinished thread waits for a stuck one's session mutex, or steps, or waits at most twice over for an unstuck thread that steps. |
| `LockOrder.SessionsAreIndependent` | src/runtime/gr4_runtime_manager.cpp:749-780 | With nobody stuck in the bootstrap, a thread that takes no session mutex of a stuck thread proceeds. |
| `LockOrder.BootstrapStopsOtherSessions` | src/runtime/gr4_runtime_manager.cpp:247-269 | Without that condition it fails: one prepare stuck in the bootstrap stops the first prepare of another session, which waits holding its own session's mutex. |
| `LockOrder.NoDeadlock` | src/app/session_service.cpp:112-147 | While a thread is unfinished some thread can step. |
| `LockOrder.ServiceReadsNeverWaitForTheRuntime` | src/app/session_service.cpp:93-108 | Threads that take no lock of the runtime proceed although others are stuck in runtime calls, the bootstrap included. |
| `LockOrder.RunsNeverDeadlock` | src/app/session_service.cpp:112-147 | No run over any critical sections reaches a state where all unfinished threads wait. |
| `LifecycleBodies.StepSince` | src/runtime/gr4_runtime_manager.cpp:978-1093 | Each own step inside prepare_locked or stop_locked keeps a relation between what the body found and what is there now, position by position. |
| `LifecycleBodies.UninterruptedBody` | src/runtime/gr4_runtime_manager.cpp:978-1093 | Run without interference, the steps of a body together satisfy the predicates that the methods PrepareLocked and StopLocked ensure: what a return has done; and what a throw leaves, the phase included and the ports it loses. |
| `LifecycleBodies.StopBodyReturnsIff` | src/runtime/gr4_runtime_manager.cpp:1047-1093 | Run without interference, a stop body returns exactly under the condition of the method StopLocked: nothing to stop, or no other teardown in progress and a scheduler that stops if it runs. |
| `LifecycleBodies.StartSteps` | src/runtime/gr4_runtime_manager.cpp:733-746 | The steps of a start behind its prepare do what the method StartExecution promises: return exactly if no teardown is in progress and the scheduler runs or starts, and leave the phase at Starting if it throws. |
| `SessionServices.InMemorySessionRepository.Create` | src/storage/in_memory_session_repository.cpp:7-13 | Inserts exactly when the id is new; nothing else changes. |
| `SessionServices.InMemorySessionRepository.Update` | src/storage/in_memory_session_repository.cpp:36-43 | Overwrites exactly when the id is known; otherwise nothing changes. |
| `SessionServices.InMemorySessionRepository.Remove` | src/storage/in_memory_session_repository.cpp:45-48 | Removes the id and says whether it was there. |
| `SessionServices.SessionService.Create` | src/app/session_service.cpp:66-91 | Rejects an empty graph and changes nothing then; otherwise stores a stopped session under a generated id that was free, with phase Idle. |
| `SessionServices.SessionService.OpenStart` | src/app/session_service.cpp:110-127 | Agrees with the opening section of the transition system: refusals in the code's order, else phase Starting. |
| `SessionServices.SessionService.OpenStop` | src/app/session_service.cpp:150-167 | The same for stop, including the early return of a stopped idle session. |
| `SessionServices.SessionService.OpenRestart` | src/app/session_service.cpp:189-203 | The same for restart. |
| `SessionServices.SessionService.OpenRemove` | src/app/session_service.cpp:231-245 | The same for remove. |
| `SessionServices.SessionService.CloseSettled` | src/app/session_service.cpp:139-147 | The closing section of start, stop and restart: state, error and phase change together, and only for this session. |
| `SessionServices.SessionService.CloseRemoved` | src/app/session_service.cpp:260-267 | The closing section of remove drops session and phase together. |
| `SessionServices.SessionService.RecordRuntimeFailure` | src/app/session_service.cpp:344-357 | Records state Error, the message and phase Failed, and throws; NotFound for a missing session. |
| `SessionServices.SessionService.FetchHttpStream` | src/app/session_service.cpp:288-315 | NotFound or InvalidState without any attempt; else at most twenty attempts, every one but the last found the endpoint unreachable, the last decides, and fewer than twenty mean it did not. |
| `RuntimeResources.SessionRuntimeResources.ReleaseStreamBindings` | src/runtime/gr4_runtime_manager.cpp:1040-1045 | Frees exactly the listed ports and clears the list. |
| `RuntimeResources.SessionRuntimeResources.PrepareLocked` | src/runtime/gr4_runtime_manager.cpp:978-1038 | Ready exactly when no teardown is in progress and an execution is there, or the contract holds, the bootstrap works, every planned stream finds a port, and the graph can be rewritten and is loaded; a new execution serves the session's plan and graph over ports that were free, an existing one is untouched; a rejection leaves nothing allocated; a failed allocation leaks fewer ports than streams are planned and changes nothing else. |
| `RuntimeResources.SessionRuntimeResources.StopLocked` | src/runtime/gr4_runtime_manager.cpp:1047-1093 | Returns exactly when there is nothing to stop, or no other teardown is in progress and the scheduler, if it runs, stops; then exactly this session's ports are free again; otherwise none is and the execution stays. |
| `RuntimeResources.SessionRuntimeResources.Clear` | src/runtime/gr4_runtime_manager.cpp:766-774 | What destroy repeats after stop_locked changes nothing. |
| `RuntimeResources.SessionRuntimeResources.StartExecution` | src/runtime/gr4_runtime_manager.cpp:733-746 | Makes the execution live, or leaves the phase at Starting when the scheduler throws; says exactly when it succeeds. |
| `RuntimeResources.BuildExecution` | src/runtime/gr4_runtime_manager.cpp:993-1030 | Allocation, graph rewriting and loading, with the exact condition for success in terms of offers, graph text and loader; a failed load gives all ports back, a failed allocation none. |
| `RuntimeResources.AllocateStreams` | src/runtime/gr4_runtime_manager.cpp:994-1014 | One binding per planned stream, in order, on the first free port offered to each in turn, up to the first stream that gets none; each with the protocol, path and endpoint of its transport, field by field. |
| `RuntimeResources.ReleaseAll` | src/runtime/gr4_runtime_manager.cpp:1024-1029 | The loop of the exception handler frees exactly the ports of the abandoned list. |
| `RuntimeManagers.Gr4RuntimeManager.GetOrCreateResources` | src/runtime/gr4_runtime_manager.cpp:962-970 | Finds the session's resources, or adds fresh ones under its id only. |
| `RuntimeManagers.Gr4RuntimeManager.Prepare` | src/runtime/gr4_runtime_manager.cpp:722-726 | Keeps pairwise disjoint allocated bindings over all sessions and every other session's resources; states for each outcome what this session's resources and the allocated ports have become. |
| `RuntimeManagers.Gr4RuntimeManager.Start` | src/runtime/gr4_runtime_manager.cpp:728-747 | What the prepare inside has done, for each outcome; on success the session is live with just that, a new execution serving its graph; a scheduler that throws leaves what was prepared with phase Starting; every other session is unchanged. |
| `RuntimeManagers.Gr4RuntimeManager.DestroyFound` | src/runtime/gr4_runtime_manager.cpp:766-774 | What destroy does under the session mutex: it returns exactly if nothing or nobody stands in the way of the stop, with nothing held and exactly this session's ports free; otherwise execution, bindings and ports are kept and the phase is stated. |
| `RuntimeManagers.Gr4RuntimeManager.Stop` | src/runtime/gr4_runtime_manager.cpp:749-757 | Returns exactly under the stated condition, having freed exactly this session's ports; otherwise execution, bindings and ports are kept and the phase is stated; a session without resources is left alone. |
| `RuntimeManagers.Gr4RuntimeManager.Destroy` | src/runtime/gr4_runtime_manager.cpp:759-780 | Returns exactly under the condition of stop, with the entry gone and exactly its ports free; otherwise the table, the execution, the bindings and the ports are as before and the phase is stated. |
| `RuntimeManagers.StubRuntimeManager.ReleaseStreams` | src/runtime/stub_runtime_manager.cpp:119-128 | Frees the session's bindings; the allocated ports stay exactly the bound ones. |
| `RuntimeManagers.StubRuntimeManager.Prepare` | src/runtime/stub_runtime_manager.cpp:15-34 | Succeeds exactly if the contract holds and every planned stream finds a port once the session's old ones are free; success binds exactly the derived plan; a partly bound plan stays on record under its session with just the ports it got, so no port is lost. |
| `RuntimeManagers.StubRuntimeManager.Stop` | src/runtime/stub_runtime_manager.cpp:40-43 | Drops this session's bindings only, and keeps the account exact. |
| `RuntimeManagers.StubRuntimeManager.Destroy` | src/runtime/stub_runtime_manager.cpp:45-49 | Drops bindings and settings of this session only. |
| `RuntimeManagers.StubRuntimeManager.SetBlockSettings` | src/runtime/stub_runtime_manager.cpp:94-103 | Overwrites exactly the patched keys of one block of one session. |
| `RuntimeManagers.StubRuntimeManager.NothingHeldNothingAllocated` | src/runtime/stub_runtime_manager.cpp:119-128 | With no bindings left no port is allocated. |
| `RuntimeManagers.AccountsAfterBinding` | src/runtime/stub_runtime_manager.cpp:22-33 | Binding fresh ports to a session keeps the exact account of ports. |
| `RuntimeManagers.AccountsAfterRelease` | src/runtime/stub_runtime_manager.cpp:119-128 | Releasing one session's ports keeps it. |
| `StreamBindings.StreamBindingAllocator.AllocateHttp` | src/runtime/stream_binding_allocator.cpp:76-96 | Takes the first offered port that is free within 64 attempts, with the literal fields of an HTTP binding; on failure the set is unchanged. |
| `StreamBindings.StreamBindingAllocator.AllocateWebSocket` | src/runtime/stream_binding_allocator.cpp:98-118 | The same with those of a websocket binding. |
| `StreamBindings.StreamBindingAllocator.Release` | src/runtime/stream_binding_allocator.cpp:120-123 | Removes this port only. |
| `StreamBindings.FirstFreeIsFirst` | src/runtime/stream_binding_allocator.cpp:79-93 | The port found is the first offered one that is free, and there is none exactly if a refusal, the end of the offers or the attempt limit comes first. |
| `StreamBindings.EndpointsIdentifyBindings` | src/runtime/stream_binding_allocator.cpp:86-113 | Endpoint texts of different ports or protocols differ (decimal printing is injective). |
| `StreamBindings.BoundIsWired` | src/runtime/stream_binding_allocator.cpp:76-118 | Binding a stream gives it the protocol, host, path and endpoint text of its transport on the given port, and tells the client exactly what was planned. |
| `Digits.DecimalMeans` | src/runtime/stream_binding_allocator.cpp:86-113 | The port in an endpoint is written with digits only, no leading zero, and the positional value of the port. |
| `SessionStreams.ValidateStreamBlock` | src/domain/session_stream.cpp:171-200 | The first complaint in the code's order, and the seen-set grows exactly by an accepted id. |
| `SessionStreams.DeriveStreamRuntimePlan` | src/domain/session_stream.cpp:215-268 | The loop computes the plan that the contract theorems are about. |
| `SessionStreams.ValidateStreamRuntimeContract` | src/domain/session_stream.cpp:270-306 | The loop computes the first contract error of the declared blocks. |
| `StreamContract.NoErrorIffContract` | src/domain/session_stream.cpp:171-200 | No complaint if and only if all declared blocks are complete and their stream ids pairwise distinct. |
| `StreamContract.DeclaredInOrder` | src/domain/session_stream.cpp:231-245 | The declared blocks are the managed places of the list, each once, in list order. |
| `StreamContract.PathsAreInjective` | src/domain/session_stream.cpp:44-53 | Paths of one session clash only for the same id and the same kind of route. |
| `StreamContract.ValidationAgreesWithDerivation` | src/domain/session_stream.cpp:215-306 | A contract error implies no plan; without one there is no plan only if nothing is declared; a plan has one stream per declared block, in order, with supported transports and distinct ids and paths. |
| `AuthoredStreams.ManagedBlockMeans` | src/domain/session_stream.cpp:82-169 | Which authored blocks ask for a stream (a type, and a `stream` parameter or a text for one of the flat keys), and the type, name, stream id, transport and format they ask with, key by key. |
| `AuthoredStreams.ContractMeans` | src/domain/session_stream.cpp:171-200 | The contract holds exactly if every such block has a name, one of the three transports and a format, and no two go by the same stream id. |
| `AuthoredStreams.ComplaintIsTheFirst` | src/domain/session_stream.cpp:171-200 | A complaint is about the first declared block that is not in order, and says what is wrong with it; a missing stream id is never complained about. |
| `AuthoredStreams.PlanMeans` | src/domain/session_stream.cpp:215-268 | There is a plan exactly if some block asks and the contract holds; it has exactly the streams that the blocks ask for, in their order, each with its literal path. |
| `Pmt.MergeParameters` | src/runtime/gr4_runtime_manager.cpp:421-430 | Raw parameters are copied where absent; the flag says whether one was. |
| `GraphRewriting.RewriteBlock` | src/runtime/gr4_runtime_manager.cpp:394-458 | The in-place rewriting of a block computes its normal form, which is described key by key in terms of the authored block. |
| `GraphRewriting.RewritePort` | src/runtime/gr4_runtime_manager.cpp:461-475 | A port token in range becomes the number it names: 0 for `in` and `out`, the positional value of its digits where it ends in a number that way, and otherwise the same text; a number out of range is an error. |
| `GraphRewriting.RewriteConnection` | src/runtime/gr4_runtime_manager.cpp:460-520 | The rewriting of a connection and the changed flag: places 1 and 3 become what their own tokens say, everything else stays, and a map becomes the list of source, source port, destination and destination port. |
| `GraphRewriting.FlowGraph.NormalizeBlockList` | src/runtime/gr4_runtime_manager.cpp:592-602 | Every block of the list is normalized and nothing else changes. |
| `GraphRewriting.FlowGraph.NormalizeConnectionList` | src/runtime/gr4_runtime_manager.cpp:604-610 | Every connection is normalized, or the first bad port number throws. |
| `GraphRewriting.FlowGraph.Inject` | src/runtime/gr4_runtime_manager.cpp:522-581 | The nested loop injects what the functional form injects, or throws exactly when it does. |
| `GraphRewriting.NormalizeGraphContent` | src/runtime/gr4_runtime_manager.cpp:583-615 | The whole pipeline yields the graph that is loaded, described place by place in terms of the authored one. |
| `GraphTheorems.NormalizeBlockIsStableIff` | src/runtime/gr4_runtime_manager.cpp:394-458 | Normalizing a block twice equals normalizing it once exactly if the authored block has a name parameter, an id, an own name, or no type that would be written over its id. |
| `GraphTheorems.NormalizeBlockIsNotAlwaysStable` | src/runtime/gr4_runtime_manager.cpp:394-458 | A block that names only its type is a counterexample to plain idempotence. |
| `GraphTheorems.NormalizeConnectionIsStable` | src/runtime/gr4_runtime_manager.cpp:460-520 | Connection normalization is idempotent wherever it succeeds. |
| `GraphTheorems.MapAndSequenceFormsAgree` | src/runtime/gr4_runtime_manager.cpp:478-519 | Map form and sequence form of one connection normalize to the same value, or both fail. |
| `GraphTheorems.OutputTokens` | src/runtime/gr4_runtime_manager.cpp:468-474 | `out` followed by digits becomes that number. |
| `GraphTheorems.InputTokens` | src/runtime/gr4_runtime_manager.cpp:468-474 | `in` followed by digits stays as it is. |
| `GraphTheorems.PortNormalizesIff` | src/runtime/gr4_runtime_manager.cpp:461-475 | A port token is accepted exactly if its number, if it has one, is at most 9223372036854775807. |
| `GraphTheorems.PortDigitsAreTheEnd` | src/runtime/gr4_runtime_manager.cpp:461-475 | The digits a token is read from are the whole token, or follow a letter t in a token that starts with `in` or `out`, and no others do. |
| `GraphTheorems.ConnectionNormalizesIff` | src/runtime/gr4_runtime_manager.cpp:477-520 | A connection of either form is normalized exactly if both its port tokens are in range. |
| `GraphTheorems.GraphNormalizesIff` | src/runtime/gr4_runtime_manager.cpp:583-610 | Normalizing a graph throws exactly if some connection has a port number out of range; what it returns has the normalized blocks. |
| `GraphTheorems.CountingReachesAll` | src/runtime/gr4_runtime_manager.cpp:532-578 | For distinct stream ids, the number of injected ids equals the number of bindings if and only if every binding reached a block. |
| `GraphTheorems.InjectionIsComplete` | src/runtime/gr4_runtime_manager.cpp:522-581 | An injection that returns has put every endpoint into a block of its name and left every other key alone. |
| `GraphTheorems.InjectionSucceedsIff` | src/runtime/gr4_runtime_manager.cpp:565-578 | It returns if and only if the bindings name pairwise distinct blocks that all exist. |
| `GraphTheorems.NamesAgreeIff` | src/domain/session_stream.cpp:143-162 | Planner and runtime give a block the same name exactly if a test on the block's own keys holds (no name is computed in it). |
| `GraphTheorems.NamesCanDisagree` | src/domain/session_stream.cpp:143-162 | A block that passes the contract and is planned, and whose plan can never be injected. |
| `GraphTheorems.RuntimeNameOfNormalized` | src/runtime/gr4_runtime_manager.cpp:394-458 | The name a block runs under, as a case distinction on the authored block. |
| `GraphTheorems.AcceptedGraphLoadsIff` | src/runtime/gr4_runtime_manager.cpp:583-615 | A graph that has passed the contract, with the bindings made for its plan, is rewritten without a throw exactly if all port numbers are in range, its streams are planned under different block names and each of these is the runtime name of an authored block. |
| `GraphTheorems.AcceptedSessionLoadsIff` | src/runtime/gr4_runtime_manager.cpp:583-615 | The same for a stored session, graphs that cannot be read or list no blocks included. |
| `GraphTheorems.NormalizeThenInject` | src/runtime/gr4_runtime_manager.cpp:583-615 | If all blocks have distinct non-empty `parameters.name` and the bindings follow the derived plan, normalize-then-inject throws exactly on a port number above the range of `std::int64_t`; otherwise each declared block gets its own endpoint over an authored one, and nothing else changes beyond normalization. |
| `GraphTheorems.RewritingKeepsOtherKeys` | src/runtime/gr4_runtime_manager.cpp:583-615 | Whatever graph it is, the rewriting keeps every root key but the blocks and the connections. |
| `RewrittenGraphs.GraphMeans` | src/runtime/gr4_runtime_manager.cpp:583-615 | What a rewritten graph is: every link and block in its place as described below, the endpoint of the first binding made for the name a block runs under, and all other keys as they were. |
| `RewrittenGraphs.BlockMeans` | src/runtime/gr4_runtime_manager.cpp:394-458 | A block is the normal form of another exactly if it keeps all keys but two, its id is its type where it names one, its parameters are the authored ones before the raw ones, and it is named by parameter, authored id or own naming keys in that order. |
| `RewrittenGraphs.ConnectionMeans` | src/runtime/gr4_runtime_manager.cpp:477-520 | A connection is rewritten to a value exactly if its ports are in range and the value holds what each token says in its own place and everything else as authored. |
| `RewrittenGraphs.PortMeans` | src/runtime/gr4_runtime_manager.cpp:461-475 | A token becomes a value exactly if it is in range and the value is the one it names: 0, the positional value of its digits, or its own text. |
| `BlockCatalog.OrdersAreTotal` | src/app/block_catalog_service.cpp:40-56 | Both orders are irreflexive and asymmetric, and neither way round exactly for blocks that agree in category, name and id. |
| `BlockCatalog.BeforeIsTransitive` | src/app/block_catalog_service.cpp:63-71 | The sort order is transitive. |
| `BlockCatalog.BetterIsTransitive` | src/app/block_catalog_service.cpp:40-56 | So is the preference order. |
| `BlockCatalog.BestExists` | src/app/block_catalog_service.cpp:74-88 | Among any blocks every class has a best entry. |
| `BlockCatalog.SortedListsAreUnique` | src/app/block_catalog_service.cpp:88-99 | A sorted list without ties is determined by its elements. |
| `BlockCatalog.BestIsUnique` | src/app/block_catalog_service.cpp:40-56 | Without ties the best entry of a class is unique. |
| `BlockCatalog.CatalogIsUnique` | src/app/block_catalog_service.cpp:60-102 | Without ties a set of blocks has at most one catalogue. |
| `BlockCatalog.TiesLeaveTheCatalogOpen` | src/app/block_catalog_service.cpp:60-102 | With a tie there are two: the sort leaves their order open. |
| `BlockCatalog.SortBlocks` | src/app/block_catalog_service.cpp:63-71 | A sorted permutation of any list; blocks that tie come in some order. |
| `BlockCatalog.ChallengeKeepsBest` | src/app/block_catalog_service.cpp:79-86 | Replacing the entry exactly when the challenger is better keeps the best entry of each class. |
| `BlockCatalog.FindKey` | src/app/block_catalog_service.cpp:80-82 | The first entry of a canonical key. |
| `BlockCatalog.BuildCatalog` | src/app/block_catalog_service.cpp:60-102 | For any provided list, repeated ids included, and without reference to the code's comparisons: one entry for each class of blocks, the type itself only if nothing else is in the class, else one with the longest id and nothing smaller; no entry smaller than the one before it in category, name and id; and the index by id. |
| `BlockCatalog.CatalogMeans` | src/app/block_catalog_service.cpp:29-102 | A catalogue in the terms of the code's two orders is exactly one in these terms. |
| `Common.LessMeans` | src/app/block_catalog_service.cpp:40-71 | A text is smaller if it is a proper prefix or has the smaller character at the first difference. |
| `BlockCatalog.BlockCatalogService.CachedCatalog` | src/app/block_catalog_service.cpp:60-104 | Computes once; later calls return the same catalogue. |
| `BlockCatalog.BlockCatalogService.List` | src/app/block_catalog_service.cpp:12-15 | Answers such a browse list of the provided blocks. |
| `BlockCatalog.BlockCatalogService.Get` | src/app/block_catalog_service.cpp:17-25 | Finds a block exactly if one of this id was provided, and of several one that is not smaller than another. |
| `BlockCatalog.CatalogDependsOnTheSetOnly` | src/app/block_catalog_service.cpp:60-102 | Without ties any two lists of the same blocks give the same catalogue. |
| `StreamRoutes.DecodePercentEncoded` | src/api/http_server.cpp:298-315 | The index loop computes the recursive decoder, including the throw on a bad escape. |
| `StreamRoutes.DecodeUndoesEncode` | src/api/http_server.cpp:298-315 | Decoding the percent-encoding of any byte string (section 2.1 of RFC 3986, as the client of test/http_api_test.cpp:678-691 writes it) gives it back. |
| `StreamRoutes.EverySpellingDecodes` | src/api/http_server.cpp:298-315 | So does decoding any other spelling: every byte as itself, as an escape with digits in either case, or a space as a plus sign. |
| `StreamRoutes.OddEscapes` | src/api/http_server.cpp:298-315 | Escapes with one digit, white space or a sign are read as the number parser has it, and escapes without a digit are refused. |
| `StreamRoutes.ParserAcceptsExactlyTheRoutes` | src/api/http_server.cpp:540-563 | The parser returns a pair if and only if the target is a route of the grammar for these ids, and throws if and only if such a route has a bad escape. |
| `StreamRoutes.RouteRoundTrip` | src/api/http_server.cpp:540-563 | Parsing the route of a percent-encoded stream id, with any query, returns session id and stream id. |
| `StreamRoutes.DecodeKeepsIff` | src/api/http_server.cpp:298-315 | Decoding leaves a text alone exactly if it has no plus sign and no percent sign with two characters after it. |
| `StreamRoutes.AdvertisedPathRoundTripsIff` | src/domain/session_stream.cpp:44-53 | The advertised, unencoded websocket path leads back to its stream exactly if the id has no question mark and is plain in that sense. |
| `BlockSettings.JsonToPropertyMap` | src/app/block_settings_service.cpp:66-76 | The filling loop computes the conversion, whatever order it visits keys in. |
| `BlockSettings.JsonToPmtValue` | src/app/block_settings_service.cpp:78-108 | The recursive conversion, errors included. |
| `BlockSettings.PropertyMapToJson` | src/app/block_settings_service.cpp:110-116 | The loop back. |
| `BlockSettings.PmtValueToJson` | src/app/block_settings_service.cpp:118-153 | The visitor back. |
| `BlockSettings.AcceptedMeans` | src/app/block_settings_service.cpp:66-108 | A document is accepted as a value exactly if the value holds its data: key by key, the same texts and truth values, reals as `double`, integers as `std::int64_t` modulo its range. |
| `BlockSettings.ShownMeans` | src/app/block_settings_service.cpp:110-153 | A value is shown as a document exactly if the document shows its data, whatever type its numbers have. |
| `BlockSettings.BodyIsAcceptedIff` | src/app/block_settings_service.cpp:66-108 | A body is accepted exactly if it is an object without an array at any depth. |
| `BlockSettings.AcceptedSettingsCanBeShown` | src/app/block_settings_service.cpp:66-153 | Accepted settings never fail to be shown. |
| `BlockSettings.SettingsRoundTripIff` | src/app/block_settings_service.cpp:78-153 | JSON to settings and back is the identity exactly if all integers fit 64 bits. |
| `BlockSettings.SettingsBodyRoundTripsIff` | src/app/block_settings_service.cpp:66-153 | The same for whole bodies. |
| `BlockSettings.LargeUnsignedIsAccepted` | src/app/block_settings_service.cpp:85-94 | Every unsigned value above the signed range is accepted and wraps to a negative number: the guard at line 90 is never reached. |
| `BlockSettings.ValueIsShownIff` | src/app/block_settings_service.cpp:118-153 | A runtime value is shown exactly if no tensor or foreign value occurs in it at any depth. |
| `BlockSettings.ShownValueCanBeWrittenBackIff` | src/app/block_settings_service.cpp:66-153 | What was shown reads back to the same value exactly if all its integers are `std::int64_t` and all its reals `double`; any other width comes back as one of these. |
| `Reflection.WriteBlock` | src/catalog/gr4_block_catalog_provider.cpp:955-982 | The three pushing loops write the document of the block. |
| `Reflection.ReadPorts` | src/catalog/gr4_block_catalog_provider.cpp:1081-1086 | The reading loop; the first bad port decides. |
| `Reflection.ReadParameters` | src/catalog/gr4_block_catalog_provider.cpp:1087-1089 | The reading loop for parameters. |
| `Reflection.ReadBlock` | src/catalog/gr4_block_catalog_provider.cpp:1067-1091 | The parser computes the functional form, errors included; an object in place of a list is visited in key order, a single value once. |
| `Reflection.PortReadsBack` | src/catalog/gr4_block_catalog_provider.cpp:897-1031 | Every port descriptor survives the round trip, present and absent fields alike. |
| `Reflection.ParameterReadsBack` | src/catalog/gr4_block_catalog_provider.cpp:922-1065 | So does every parameter descriptor, with any default value and with labels that are left out when empty. |
| `Reflection.BlockRoundTripsIff` | src/catalog/gr4_block_catalog_provider.cpp:955-1091 | A block descriptor reads back equal exactly if its canonical type is not the empty string. |
| `Reflection.BlockReadsBack` | src/catalog/gr4_block_catalog_provider.cpp:1067-1091 | In every case only that field differs: an empty canonical type reads back as absent. |
| `Reflection.ReadBlocksAreStable` | src/catalog/gr4_block_catalog_provider.cpp:1067-1091 | Whatever payload a block was read from, writing and reading it again gives the same block. |
| `ReflectionDocuments.PortDocument` | src/catalog/gr4_block_catalog_provider.cpp:897-920 | The document of a port, key by key; an absent field leaves no key. |
| `ReflectionDocuments.ParameterDocument` | src/catalog/gr4_block_catalog_provider.cpp:922-953 | The document of a parameter, key by key; labels leave no key if there are none. |
| `ReflectionDocuments.BlockDocument` | src/catalog/gr4_block_catalog_provider.cpp:955-982 | The document of a block, key by key, with its ports and parameters in order. |
| `ReflectionDocuments.PortIsRead` | src/catalog/gr4_block_catalog_provider.cpp:1003-1031 | From which documents a port is read: name and type must be there, other fields of the wrong kind read as absent, counts modulo the range of `int`. |
| `ReflectionDocuments.ParameterIsRead` | src/catalog/gr4_block_catalog_provider.cpp:1033-1065 | From which documents a parameter is read; array and object defaults are refused, and choices and labels that are no texts. |
| `ReflectionDocuments.BlockIsRead` | src/catalog/gr4_block_catalog_provider.cpp:1067-1091 | From which documents a block is read, with its ports and parameters from what a loop over their lists visits. |
| `TemplateArguments.InferCollectionElementType` | src/catalog/gr4_block_catalog_provider.cpp:672-700 | The depth-counter loop computes the first argument, trimmed. |
| `TemplateArguments.ScanPasses` | src/catalog/gr4_block_catalog_provider.cpp:680-694 | The scanner passes a text without a top-level comma and stops inside any other. |
| `TemplateArguments.LevelMeans` | src/catalog/gr4_block_catalog_provider.cpp:680-694 | The depth after a text is its balance of opening and closing brackets on top of the depth before, or the largest balance of an end of it: stray closing brackets do not count. |
| `TemplateArguments.OnlyArgumentIsReadIff` | src/catalog/gr4_block_catalog_provider.cpp:672-700 | A single trimmed argument is read back exactly if it has no comma outside brackets. |
| `TemplateArguments.FirstArgumentIsReadIff` | src/catalog/gr4_block_catalog_provider.cpp:672-700 | The first of several is read back exactly if, besides, its brackets are closed at its end. |
| `TemplateArguments.FirstTypeArgumentIsRead` | src/catalog/gr4_block_catalog_provider.cpp:672-700 | For every type expression, however nested, the element type of its text is the text of its first argument. |
| `TemplateArguments.ElementTypeMeans` | src/catalog/gr4_block_catalog_provider.cpp:672-700 | An id has an element type exactly if it has the form name, opening bracket, arguments, closing bracket, rest, and the first argument is more than spacing; it is that argument without the spacing around it. |

## Left out

- Timestamps, error message texts beyond their kind, log output, and the ordering of `SessionService::list`.
- Session id generation: fresh ids are offered by the environment; that one is free some time is the only assumption.
- `async_error`, `teardown_complete`, `teardown_error` and the scheduler alias: set or read without influence on the modelled state.
- Exceptions that do not derive from `std::exception`, and exceptions of the allocator's release, which throws none.
- The destructor of the runtime manager and its shutdown loop.
- The YAML parser and printer: reading is a parameter, and the rewritten tree stands for its printed and reparsed text.
- HTTP proxying, the websocket bridge, sockets, and the JSON responses; a fetch is one answer of the environment per attempt.
- Message exchange with running blocks (`send_block_settings_request`): its outcome depends on library readers and time.
- Blocks, parameters and kinds of values the control plane never looks into: one opaque constructor.
- The memory layout behind floating-point defaults and settings: finite doubles are real numbers that are passed through.
- The algorithm of `std::sort`: insertion stands for it, and nothing is said of the order of blocks that agree in category, name and id.
- RuntimeManagers.Gr4RuntimeManager.Start: called without interference; interleavings are the subject of the transition system.
- RuntimeManagers.StubRuntimeManager.Prepare: sequential use only, since the stub has no mutex.
- LifecycleReaders.ReadersSeeTheStoredSession: speaks of the moment the reader holds the session's mutex; the answer may be outdated when it reaches the client.
- The work of the plugin bootstrap (directories, library loading): one stretch that works or fails.
- Static block catalogues, scheduler catalogues, name and category formatting, plugin loading, the command line and process plumbing.
