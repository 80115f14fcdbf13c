# Verification model of the asynchronous image-task server

openPic-mcp is an MCP server that runs slow image generation in the background. A client submits a
task and gets an id; a dispatcher's workers run the task; the client polls, waits or cancels; on
shutdown whatever is unfinished is abandoned; and a directory of manifests lets a restarted process
give every earlier task a definite outcome. This project models that layer, together with the engine
that reads requests and executes them, in Dafny, and proves what each part keeps over whole runs.

## Layout

| file | what it models |
|---|---|
| `Collections.dfy` | sizes of sets and sequences |
| `Tasks.dfy` | the task record, its states and the transition table |
| `TaskIDs.dfy` | the id printer and the parser behind `TaskID.PID` |
| `TerminalHeap.dfy` | `container/heap` on the retention heap, as functions on a sequence of (id, finish time) |
| `StoreSpec.dfy` | each operation of the store as a function on an immutable picture of it, and the representation invariant |
| `MemoryStore.dfy` | the store itself: records shared by a map and a heap, back-pointers, counters, done flags, hooks, updated in place and proved equal to `StoreSpec` |
| `StoreLaws.dfy`, `StoreFacts.dfy` | laws over runs of store operations, and what each operation records and refuses in literal terms |
| `Retention.dfy`, `LostOrder.dfy` | retention against a specification that knows no heap, and what a finish time rewritten in the heap does to it |
| `Manifests.dfy`, `Mirror.dfy` | the manifest directory, the lifecycle hooks, and when disk equals memory |
| `Replay.dfy`, `DiskStore.dfy`, `Restart.dfy`, `Recovery.dfy` | `NewDisk`, what it recovers, restarting twice, and restarting after any run |
| `DispatchSteps.dfy` | the dispatcher protocol as steps: one critical section, channel operation or flag access each |
| `DispatchTokens.dfy`, `DispatchStore.dfy`, `DispatchInvariant.dfy` | its invariant: who holds each task, and what the store then says |
| `DispatchLaws.dfy`, `DispatchShutdown.dfy` | what follows for every run, and for shutdown |
| `TaskRecords.dfy` | where every field of a task's record comes from, over every run |
| `DispatchCancel.dfy` | what a Cancel does to the handler, over every run |
| `Dispatcher.dfy` | the dispatcher object and the submit handler, proved to perform runs of the protocol |
| `Ledger.dfy` | the cancellation registry |
| `Engine.dfy`, `EngineBooks.dfy`, `EngineLaws.dfy`, `EngineLedger.dfy`, `EngineReach.dfy`, `EngineFacts.dfy`, `EngineShutdown.dfy` | the server engine as steps, and its laws |
| `Server.dfy` | the server object, proved to perform runs of the engine |
| `Framing.dfy` | newline framing on the two byte streams |

Two kinds of concurrency appear. The store's methods hold one lock, so each is one atomic function of
the store's picture. The dispatcher and the engine are step systems: an event names which party moves
next, `Enabled` says when it may, `Next` gives the new state, and a run is any sequence of enabled
events, so a statement about every run is a statement about every interleaving. A handler is a step
that returns any result. History components (where each task is, which context belongs to which task,
which handlers were started) record what happened and influence nothing. Timestamps are integers; the
clock's reading is a parameter of every step that reads it.

## Where the code does less than its documentation

* `README.md:433` promises that on start every queued or running task becomes abandoned. The code
  abandons only records with its own pid (`internal/taskstore/disk.go:141-144`), and so does the model.
  `Replay.AllSettledIff` says when the promise holds: with distinct ids among the manifests read, every
  record is terminal afterwards exactly when no manifest read is queued or running under another pid.
  `Replay.ForeignQueuedStaysQueued` is a directory of one file in which it fails.
* Retention promises the newest by finish time. `Cancel` reads under one lock and commits under
  another, so two calls for the same task can both commit; the second rewrites the finish time of a
  record already in the heap and nothing re-sorts it. `Retention.TwoCancelsBreakRetention` is a run in
  which the store then evicts the newer of two tasks, and `Retention.LoweredTimeBreaksRetention` is one
  in which the clock has gone back between the two commits. `LostOrder.SecondCancelKeepsRetentionIff` is
  the exact condition, whatever the clock reads: on an open store with a free queue slot, the second
  commit is harmless if and only if the new time still fits, which means that the record's parent in the
  heap is not newer, that no child of its place is older, and that nothing already dropped is newer.
  Harmless means that every further run keeps the newest, where further rewrites of finish times keep the
  heap ordered and pass nothing dropped; when the time does not fit, a run of later-finishing tasks
  that rewrites nothing breaks the promise. `LostOrder.RewriteKeepsRetentionIff` says the same for every
  edit of a terminal record. `Retention.RetentionIsNewest` covers every run whose rewrites all fit.
* The hooks promise that the directory follows memory. A task that finishes while the heap is full, and
  earlier than everything on the chain from its place to the root, is itself evicted; its manifest is
  deleted and then written again. `Mirror.MirrorKeptIff` is the exact condition for one transition, on
  every valid store, `Mirror.MirrorsThroughoutIff` for whole runs, and
  `Mirror.EarlyFinishLeavesManifest` is a run in which the manifest stays behind.
* `Dispatch` checks a flag and then sends. A `Close` in between makes the send panic and leaves the
  task queued with nobody to run it. `DispatchShutdown.CloseIsSafeIff` says that this can happen
  exactly when some submit handler is between the two; `DispatchShutdown.CloseRaceStrands` is a run.
  The program calls `Close` only after the engine's `Run` has returned, and by then no handler is left.
* `normalizeID` says that collisions occur only for matching wire values, but the string "1" and the
  number 1 share a key (`Ledger.KeysCollideIff`). `Done` removes by key and not by owner, so with a
  duplicate id the first request to finish takes the other one's entry
  (`EngineLedger.DoneKeepsOthersIff`, `EngineLedger.DuplicateIdLosesCancel`). Over whole runs every
  unfinished request can be cancelled, has been, or is about to be, exactly as long as no `Done` does that
  (`EngineReach.AlwaysReachableIff`).
* The comment at `internal/tools/dispatcher.go:256-258` expects `RegisterCancel` to fail on a terminal
  task. It returns nil there (`StoreSpec.RegisterCancelOnTerminal`); the queued-to-running transition is
  what stops the job.

## Model

| member | source | states |
|---|---|---|
| `Tasks.LifecycleIsShort` | internal/taskstore/task.go:53-89 | any chain of allowed transitions has at most three states, only the last can be terminal, running is entered only from queued, and a chain of three is queued, running, terminal |
| `TaskIDs.Generator.Next` | internal/taskstore/id.go:58-73 | the counter advances by one modulo 2^64 and the id is the printed form of pid, stamp, random part and the new counter |
| `TaskIDs.PidRoundTrip` | internal/taskstore/id.go:58-101 | for every positive pid, parsing a printed id gives that pid back |
| `TaskIDs.PidIff` | internal/taskstore/id.go:85-101 | an id has a pid if and only if it is the prefix, a positive decimal number in the int range with an optional plus sign, a separator and anything |
| `TaskIDs.PrintExample` | internal/taskstore/id.go:58-73 | an id written out: prefix, pid, stamp, random part and the four lower-case hexadecimal digits of the low sixteen counter bits |
| `TaskIDs.PrintInjective` | internal/taskstore/id.go:58-73 | ids with equal-length stamps and random parts collide if and only if pid, stamp, random part and the low sixteen counter bits agree |
| `TerminalHeap.PushContents` | internal/taskstore/memory.go:549-553 | heap.Push adds the new slot and nothing else, and keeps ids distinct |
| `TerminalHeap.PushOrders` | internal/taskstore/memory.go:540-553 | on an ordered heap heap.Push keeps the order, and the newcomer becomes the root exactly when it is strictly older than everything held |
| `TerminalHeap.PopIsRoot` | internal/taskstore/memory.go:555-563 | heap.Pop returns the root whatever the order, and the rest are the other slots |
| `TerminalHeap.PopOrders` | internal/taskstore/memory.go:540-563 | on an ordered heap the rest after heap.Pop is ordered |
| `TerminalHeap.RootIsOldest` | internal/taskstore/memory.go:535-542 | the root of an ordered heap is not newer than any slot |
| `MemoryStores.RecordHeap.Swap` | internal/taskstore/memory.go:543-547 | exchanges two records and keeps every heapIx equal to its record's place |
| `MemoryStores.RecordHeap.Insert` | internal/taskstore/memory.go:549-553 | push in place: back-pointers right, the record joins the members, the slots are those of the pure heap |
| `MemoryStores.RecordHeap.Remove` | internal/taskstore/memory.go:555-563 | pop in place: returns the former root with heapIx -1, which leaves the members, the slots are those of the pure heap |
| `StoreSpec.NewMemValid` | internal/taskstore/memory.go:65-128 | a new store satisfies the invariant for every configuration, with bounds within the hard caps |
| `StoreSpec.SubmitValid` | internal/taskstore/memory.go:136-186 | Submit with an unused id keeps the whole invariant, and never lifts queued above the admission bound |
| `StoreSpec.TransitionValid` | internal/taskstore/memory.go:289-386 | Transition keeps the invariant for every edit that leaves id and pid alone, whatever it does to state and finish time |
| `StoreSpec.TrimmedValid` | internal/taskstore/memory.go:378-386 | eviction restores the retention bound and keeps counts, heap membership and done flags right, and heap order if there was order |
| `StoreSpec.RegisterCancelValid` | internal/taskstore/memory.go:435-455 | RegisterCancel keeps the invariant; terminal records stay without a cancel func |
| `StoreSpec.RegisterCancelOnTerminal` | internal/taskstore/memory.go:435-455 | on a known own record RegisterCancel always reports success; on a terminal one nothing is kept, on a live one the func is |
| `StoreSpec.RestoreValid` | internal/taskstore/memory.go:478-532 | restore of any task keeps the invariant |
| `StoreSpec.SizeIsSum` | internal/taskstore/memory.go:337-386 | in every state with the invariant, map size is queued plus running plus heap length |
| `StoreLaws.TransitionEffect` | internal/taskstore/memory.go:289-372 | every path through Transition seen from any record: a failed call changes nothing, another record is unchanged unless it was terminal and evicted, the subject carries the stamped edit over an allowed edge (`StoreFacts.TransitionRecords` says which times are stamped) or was evicted as terminal |
| `StoreLaws.RestoreEffect` | internal/taskstore/memory.go:478-532 | restore changes no existing record, may trim terminal ones, and adds only the task given |
| `StoreLaws.RunKeepsValid` | internal/taskstore/memory.go:136-563 | after any run of Submit, Transition, RegisterCancel, restore and Close the representation invariant holds: true counts, each terminal record once in the heap, done closed exactly on terminal records, no cancel func on them, at most MaxRetained kept |
| `StoreLaws.OutcomeIsFinal` | internal/taskstore/memory.go:307-331 | over any run a terminal record keeps its state or is evicted for good |
| `StoreLaws.ForeignIsUntouched` | internal/taskstore/memory.go:307-309 | over any run a record of another process stays exactly as it was, or was terminal and has been evicted |
| `StoreFacts.SubmitRecords` | internal/taskstore/memory.go:136-186 | for every input: each of StoreClosed, InvalidKind and QueueFull if and only if its own test is the first to fail; an accepted task is recorded, and handed to the hook, with exactly the id, kind, request and time asked for, the store's pid, state queued and every other field empty |
| `StoreFacts.TransitionRecords` | internal/taskstore/memory.go:311-372 | what a successful call writes and records, field by field: a move to running sets the start time to now and an entry to a terminal state the finish time, each only if the edit left it zero; every other field is the edit's |
| `StoreFacts.TransitionRefuses` | internal/taskstore/memory.go:289-319 | which error, each if and only if its own test is the first to fail, with the allowed moves written out; a failed call changes nothing and calls no hook |
| `StoreFacts.CancelRecords` | internal/taskstore/memory.go:230-279 | the first step finds exactly the registered cancel func and whether the task is over; the second records cancelled with its own finish time and the hint (client by default), and reports a lost race as success |
| `StoreFacts.RegisterRecords` | internal/taskstore/memory.go:435-455 | which error, and the one field set |
| `StoreFacts.WaitReads` | internal/taskstore/memory.go:389-405 | which error, the terminal record itself, or a block |
| `StoreFacts.RestoreRecords` | internal/taskstore/memory.go:478-532 | a manifest is taken if and only if id, kind and state are valid and the id is new; it is held as it was read, a terminal one without a finish time stamped, or trimmed |
| `StoreFacts.NewMemBounds` | internal/taskstore/memory.go:65-128 | the bounds are those configured, 256 and 1024 if not positive, at most 10000 and 100000 |
| `MemoryStores.MemoryStore.constructor` | internal/taskstore/memory.go:109-128 | the object shows the new store |
| `MemoryStores.MemoryStore.Submit` | internal/taskstore/memory.go:136-186 | in place: outcome, new store and hook call are those of the specification, for every input |
| `MemoryStores.MemoryStore.Get` | internal/taskstore/memory.go:189-200 | the snapshot of a known id, or which error |
| `MemoryStores.MemoryStore.Transition` | internal/taskstore/memory.go:289-332 | in place: outcome, new store, evictions and hook order are those of the specification, and every record that leaves the map has its done channel closed |
| `MemoryStores.MemoryStore.ApplyStateChange` | internal/taskstore/memory.go:337-372 | in place: counters, stamps, heap, done, cancel and eviction together give the specified store, deletions reach the disk in order |
| `MemoryStores.MemoryStore.EvictUntilUnderRetention` | internal/taskstore/memory.go:378-386 | the loop pops, deletes and fires the hook once per dropped record until the bound holds, and drops only heap members |
| `MemoryStores.MemoryStore.Cancel` | internal/taskstore/memory.go:230-279 | uninterrupted: the func fired is exactly the one registered on a known own record; which outcomes are reported as success, and the resulting store |
| `MemoryStores.MemoryStore.CancelPeek` | internal/taskstore/memory.go:242-256 | the first step of Cancel returns the registered func and whether the task is terminal, or which error |
| `MemoryStores.MemoryStore.RegisterCancel` | internal/taskstore/memory.go:435-455 | in place: outcome and the one changed cancel func |
| `MemoryStores.MemoryStore.WaitPeek` | internal/taskstore/memory.go:389-405 | the first step of Wait: an error, a terminal snapshot, or an open done channel of the live record |
| `MemoryStores.MemoryStore.Restore` | internal/taskstore/memory.go:478-532 | in place: outcome and store of the specification; no hook fires |
| `Retention.RetentionIsNewest` | internal/taskstore/memory.go:354-386 | after any run from empty, by Transition or restore, in any order of finish times and with any finish-time rewrite that keeps the heap ordered and passes nothing dropped, the terminal records kept are exactly the MaxRetained newest, by their last finish time, of all that ever became terminal |
| `Retention.RaisingIsTame` | internal/taskstore/memory.go:311-331 | an edit of a terminal record that leaves its finish time alone, or raises it while the heap stays ordered, is such a rewrite |
| `Retention.NewestIsUnique` | internal/taskstore/memory.go:374-386 | with distinct finish times that specification has one solution |
| `LostOrder.RewriteKeepsRetentionIff` | internal/taskstore/memory.go:311-386 | for every edit of a terminal record on an open store with a free queue slot, whether it raises or lowers the finish time: every further run (its own rewrites keeping the heap ordered and passing nothing dropped) keeps the newest if and only if the record's parent is not newer than the new time, no child of its place is older and nothing already dropped is newer; the same if only runs of later-finishing tasks are asked about |
| `LostOrder.SecondCancelKeepsRetentionIff` | internal/taskstore/memory.go:230-279 | the same for the second commit of Cancel, whatever its clock reads |
| `LostOrder.DoomedIsLost` | internal/taskstore/memory.go:374-386 | a heap with one record above an older child, otherwise in order, always has a continuation of later-finishing tasks that evicts that record while an older one is kept |
| `Retention.TwoCancelsBreakRetention` | internal/taskstore/memory.go:230-279 | a concrete run: after two cancels of one task the store evicts a task that finished at 5 and keeps one that finished at 3 |
| `Retention.LoweredTimeBreaksRetention` | internal/taskstore/memory.go:230-279 | a concrete run: a is cancelled at 2, b at 3 and once more at 1; b's place has no child, yet the next task to finish makes the store evict a and keep b |
| `Manifests.FileNameInjective` | internal/taskstore/disk.go:199-201 | different ids have different manifest names |
| `Manifests.Directory.PersistManifest` | internal/taskstore/disk.go:180-186 | the write hook replaces exactly one file, or nothing if the write fails |
| `Manifests.Directory.DeleteManifest` | internal/taskstore/disk.go:190-196 | the delete hook removes exactly one file, or nothing if it fails; a missing file is success |
| `Mirror.MirrorStep` | internal/taskstore/disk.go:123-130 | one Submit, Transition or RegisterCancel with working hooks keeps directory and memory equal, evictions included and whatever the order of the heap, if a finishing task finds room or some record on the chain from its place to the root that did not finish later |
| `Mirror.DiskMirrorsMemory` | internal/taskstore/disk.go:123-196 | the same after every run from an empty directory: one manifest per record, with that record's task, and no other |
| `Mirror.MirrorsInOrder` | internal/taskstore/disk.go:123-196 | so while no task finishes before anything retained, directory and memory are equal after every run from an empty directory, whatever happens to finish times already in the heap |
| `Mirror.MirrorKeptIff` | internal/taskstore/memory.go:321-331 | on every valid store, a task entering a terminal state leaves the directory equal to memory if and only if there is room or some record on the chain from the newcomer's place to the root did not finish later |
| `Mirror.MirrorsThroughoutIff` | internal/taskstore/disk.go:123-196 | over every run, directory and memory are equal after every step if and only if every finishing task met that condition |
| `Mirror.OrderedMirrorKeptIff` | internal/taskstore/memory.go:321-331 | while the heap is ordered, the condition is room, or any retained record that did not finish later |
| `Mirror.EarlyFinishLeavesManifest` | internal/taskstore/memory.go:321-331 | a concrete run, retention 1, a cancelled at 5 and b at 3: b is not in memory and its manifest is on disk |
| `Replay.ReplayRecovers` | internal/taskstore/disk.go:132-164 | for every directory, listing order and disk health, after NewDisk the store is valid and every record comes from a manifest read, field by field: an own unfinished one is abandoned with the restart hint and stamped, any other is as it was, with a finish time if it is terminal and had none; no own record is queued or running |
| `Replay.ManifestNames` | internal/taskstore/disk.go:276-283 | the files considered are those with a visible, non-empty stem before the extension |
| `Replay.ForeignLiveSurvives` | internal/taskstore/disk.go:132-145 | with distinct ids among the manifests read, a queued or running manifest of another process is in memory exactly as read |
| `Replay.AllSettledIff` | internal/taskstore/disk.go:132-164 | with distinct ids among the manifests read, every record after NewDisk is terminal if and only if no manifest read is queued or running under another pid |
| `Replay.ForeignQueuedStaysQueued` | internal/taskstore/disk.go:141-144 | one queued manifest of process 8: after the start of process 7 it is still queued |
| `Replay.AgreeStep` | internal/taskstore/disk.go:123-130 | one Submit, Transition or RegisterCancel with working hooks keeps the manifest of every record held at the record's state, with no condition on finish times |
| `Replay.ReplayAgrees` | internal/taskstore/disk.go:123-164 | with manifests named after their ids and a working disk, every record in memory agrees with its manifest on state, after NewDisk and after every run that follows it |
| `Restart.RestartIsIdempotent` | internal/taskstore/disk.go:132-164 | with distinct non-zero finish times, replaying the directory a replay left, in any order and with any clocks, gives the same records and leaves the directory unchanged |
| `Recovery.RestartSettlesRun` | internal/taskstore/disk.go:115-196 | after any run from an empty directory with working hooks, generated ids and every finishing task finding a place, a restart under the same pid and bounds holds only tasks the run left, each terminal: the finished ones as they were, the queued and running ones abandoned; they are the newest by finish time, and all of them if the bound allows |
| `DiskStores.ReadAllManifests` | internal/taskstore/disk.go:266-310 | the loop keeps exactly the visible .json files with a valid id and kind, in listing order |
| `DiskStores.NewDisk` | internal/taskstore/disk.go:107-164 | the object form of both phases computes the replay function and starts valid |
| `DiskStores.LoadPhase` | internal/taskstore/disk.go:132-145 | the restore loop and the list of ids to abandon |
| `DiskStores.AbandonPhase` | internal/taskstore/disk.go:147-164 | the abandon loop, memory and disk together |
| `DispatchStore.Settles` | internal/taskstore/memory.go:311-331 | moving a known task to failed, cancelled or abandoned (or a running one to completed) leaves it finished unless the store is closed, whatever the outcome of the call |
| `DispatchStore.Starts` | internal/tools/dispatcher.go:273-281 | for a task that is not running, queued-to-running succeeds if and only if the store is open and it is still queued; a failure changes nothing and means closed or finished |
| `DispatchInvariant.RunKeepsInv` | internal/tools/dispatcher.go:165-343 | the protocol invariant holds in every state of every run: holder of each task and its state in the store agree, d.running and the contexts are right, and every call's knowledge is true |
| `DispatchLaws.NoTaskIsStranded` | internal/tools/dispatcher.go:246-343 | in every reachable state with the store open, an unfinished own task is held by exactly one submit handler, channel slot or worker (a running one by a worker), or a Cancel call owes its transition; a submit handler whose send panicked still counts as the holder |
| `DispatchLaws.QuiescentMeansSettled` | internal/tools/async.go:243-280 | once the dispatcher has closed and every call has returned, every task submitted and every own record has its done channel closed and is terminal or evicted |
| `DispatchLaws.HandlerRunsOnce` | internal/tools/dispatcher.go:270-306 | over any run no handler is started twice for one task, and whatever executes was started |
| `DispatchLaws.StartMeansQueued` | internal/tools/dispatcher.go:270-281 | a worker goes on to the handler if and only if its step found the task queued and the store open; it had not been started before and is running afterwards |
| `DispatchLaws.OutcomeNeverChanges` | internal/tools/dispatcher.go:307-343 | a finished task keeps its terminal state over the rest of any run, or is evicted and does not come back |
| `DispatchLaws.AnswersAreTrue` | internal/taskstore/memory.go:230-432 | in every reachable state a Wait that returned without error returned a terminal task, a blocked waiter has a live task or can be woken, and a Cancel that returned nil has left its task terminal or evicted |
| `DispatchLaws.PoolIsConfigured` | internal/tools/dispatcher.go:109-130 | in every reachable state pool and channel have the configured sizes, 16 and 256 by default, at most 100 and 10000 |
| `DispatchLaws.FirstInFirstOut` | internal/tools/dispatcher.go:165-241 | over every run tasks reach the workers in the order in which they were dispatched |
| `TaskRecords.EveryRecordIsAccountedFor` | internal/tools/dispatcher.go:246-380 | over every run, the record of a task submitted here and still held is explained in both directions: each field comes from a step that took effect (its submission; its start; its handler's return, recorded by the same worker; a refusal with its fixed text; a cancel; an abandonment or roll-back with its hint), and whatever was submitted, started, returned and recorded shows in it |
| `TaskRecords.FinishCarriesOutcome` | internal/tools/dispatcher.go:307-360 | in every reachable state with the store open, a Finish on a running task leaves it over, and if still held with the handler's outcome: Success gives completed and that result, an error its message, a nil result its fixed text; the finish time is now and every other field is unchanged |
| `TaskRecords.AnswersAreAccountedFor` | internal/taskstore/memory.go:389-432 | a Wait that returned a task, or timed out with a snapshot, returned a record explained in that way |
| `DispatchCancel.RegisteredFuncIsOwn` | internal/tools/dispatcher.go:246-260 | in every reachable state, from RegisterCancel to the final transition, the record of a worker's task has that worker's cancel func, unless the task is over |
| `DispatchCancel.CancelReachesHandler` | internal/taskstore/memory.go:242-258 | a Cancel begun in such a state: whatever interleaves, once it has passed its first step the worker's context is cancelled, and until then that is what its next step does |
| `DispatchCancel.CancelOfFinishedIsIdle` | internal/taskstore/memory.go:253-261 | a Cancel of a task that is over fires nothing, never commits, and answers success |
| `DispatchCancel.InterruptedNeverCompletes` | internal/tools/dispatcher.go:295-305 | a task whose worker's context is cancelled before the worker has examined it is never recorded as completed or failed over the rest of any run |
| `DispatchCancel.WaitAnswers` | internal/taskstore/memory.go:389-432 | each step of a Wait changes only its own call and answers from the record as it then is |
| `DispatchCancel.CancelAnswers` | internal/taskstore/memory.go:230-279 | the first step of a Cancel refuses an empty, unknown or foreign id, the second reports success unless the store is closed or the record foreign |
| `DispatchCancel.NoContextLeaks` | internal/tools/dispatcher.go:246-248 | in every reachable state every context runJob created is cancelled or belongs to a worker that still has its job |
| `DispatchLaws.QueueFullMeansStale` | internal/tools/dispatcher.go:165-176 | with a channel at least as large as the admission bound, a Dispatch that finds the channel full has met a task that already left queued: the one offered or one in the channel |
| `DispatchLaws.MemoryIsBounded` | internal/taskstore/memory.go:154-177 | without records of other processes and with the store open, the map never exceeds MaxQueued + MaxRetained + workers + Cancel calls between firing and transitioning |
| `DispatchLaws.ReplayIsInitial` | internal/taskstore/disk.go:132-164 | what NewDisk leaves is a state the dispatcher's invariant starts from |
| `DispatchShutdown.WorkerStepFalls` | internal/tools/dispatcher.go:235-343 | every worker step lowers nine times the queue length plus the workers' remaining steps |
| `DispatchShutdown.DrainIsBounded` | internal/tools/dispatcher.go:224-241 | after close, in any interleaving with other calls, the workers take at most that many steps |
| `DispatchShutdown.DrainTerminates` | internal/tools/dispatcher.go:224-269 | in every run after close, whatever handlers return and whatever interleaves, a state in which no worker has a step left has all workers exited, the channel empty and d.running empty |
| `DispatchShutdown.DrainCanFinish` | internal/tools/dispatcher.go:224-269 | from every reachable state with the channel closed the workers alone reach that state, for any choice of handler results and clock |
| `DispatchShutdown.ShutdownSettlesAll` | internal/tools/dispatcher.go:224-241 | in every run after close, a state with no worker step left, every call returned and the store open has every worker gone, d.running empty, and every own task terminal or evicted with its done channel closed, those still in the channel included |
| `DispatchShutdown.ShutdownCanFinish` | internal/tools/dispatcher.go:224-241 | with no call pending and the store open, flag, channel and the workers' steps reach such a state, for any choice of handler results and clock |
| `DispatchShutdown.ExecutingIsPublished` | internal/tools/dispatcher.go:260-269 | every worker executing a handler has its id in d.running under its own context |
| `DispatchShutdown.AbandonCoversSnapshot` | internal/tools/dispatcher.go:182-219 | when AbandonRunning returns with the store open, every id that was in d.running at its snapshot is terminal or evicted with its done channel closed, and its context is cancelled, whatever interleaved |
| `DispatchShutdown.AbandonCoversExecuting` | internal/tools/dispatcher.go:182-219 | so is the task and the context of every handler executing at that moment |
| `DispatchShutdown.CloseIsSafeIff` | internal/tools/dispatcher.go:165-230 | closing the channel can make some later Dispatch panic if and only if some submit handler has passed the flag check and not yet sent |
| `DispatchShutdown.CloseRaceStrands` | internal/tools/dispatcher.go:165-230 | from every initial state with a free slot there is a run in which Close overtakes a Dispatch and its task is left queued with no holder but the panicked call |
| `DispatchShutdown.OrphanStaysQueued` | internal/tools/dispatcher.go:182-230 | such a task stays queued over every run in which nobody cancels it and the store stays open |
| `Dispatchers.Dispatcher.Dispatch` | internal/tools/dispatcher.go:165-176 | in place: the flag check and the non-blocking send, with which error |
| `Dispatchers.Dispatcher.RunJob` | internal/tools/dispatcher.go:246-343 | in place: register, publish, start, handler, context check, final transition, deferred unpublish and cancel give the specified state |
| `Dispatchers.Dispatcher.Work` | internal/tools/dispatcher.go:235-241 | the worker loop runs every queued job and leaves the channel empty |
| `Dispatchers.Dispatcher.AbandonRunning` | internal/tools/dispatcher.go:182-219 | in place: the snapshot loop and, per item, transition then cancel func |
| `Dispatchers.Dispatcher.SubmitImageTask` | internal/tools/async.go:243-280 | in place: record, dispatch, and roll back to abandoned or failed |
| `Dispatchers.Dispatcher.Close` | internal/tools/dispatcher.go:224-232 | flag, then channel; a second call does nothing |
| `Dispatchers.RanJobIsRun` | internal/tools/dispatcher.go:246-343 | an uninterrupted runJob is a run of the protocol |
| `Dispatchers.AbandonedIsRun` | internal/tools/dispatcher.go:182-219 | an uninterrupted AbandonRunning is a run of the protocol |
| `Dispatchers.HandledSubmitIsRun` | internal/tools/async.go:243-280 | an uninterrupted submit handler is a run of the protocol |
| `Dispatchers.WorkedIsRun` | internal/tools/dispatcher.go:235-241 | an uninterrupted worker loop is a run of the protocol |
| `Ledger.KeysCollideIff` | internal/protocol/cancellation.go:118-128 | two ids share a key if and only if both are present and print the same, so the string "1" and the number 1 do |
| `Ledger.CancellationRegistry.Register` | internal/protocol/cancellation.go:63-75 | in place: the new entry, and the displaced cancel func is fired; a null id does nothing |
| `Ledger.CancellationRegistry.Cancel` | internal/protocol/cancellation.go:79-94 | in place: the entry found is removed and fired, and the result says whether there was one |
| `Ledger.CancellationRegistry.Done` | internal/protocol/cancellation.go:99-107 | in place: the entry under the key is removed and nothing is fired |
| `Ledger.CancellationRegistry.Len` | internal/protocol/cancellation.go:112-116 | the number of entries, zero exactly for an empty registry |
| `EngineLaws.EveryJobHasOnePlace` | internal/server/server.go:350-472 | in every reachable state each accepted frame is in exactly one place and its handler was started at most once, exactly once if executing or finished |
| `EngineLaws.AccountingIsExact` | internal/server/server.go:376-472 | in every reachable state the WaitGroup and the inflight gauge are the queued plus the executing jobs, up to the deferred steps outstanding, and accepted equals completed plus queued plus executing plus the one being prepared |
| `EngineLaws.ReturnMeansAllDone` | internal/server/server.go:291-345 | when Run returns the queue is empty, both counters are zero, completed equals accepted, every accepted frame was executed exactly once, and the ledger is empty even with duplicate ids |
| `EngineLaws.LoadIsBounded` | internal/server/server.go:581-595 | the pool and the queue have the configured sizes (16 and 64 if not positive, at most 100 and 10000); in every reachable state at most that many handlers and one more execute (the extra one only with the receive loop serving), and at most pool plus queue plus one requests are unfinished |
| `EngineLaws.LoadIsAsConfigured` | internal/server/server.go:581-595 | within the caps the bounds are the configured numbers themselves |
| `EngineFacts.FirstInFirstOut` | internal/server/server.go:395-437 | over every run requests reach the workers in the order in which they were accepted |
| `EngineFacts.FallbackIsExact` | internal/server/server.go:395-427 | the fallback counter is exactly the number of requests that found the queue full |
| `EngineFacts.ContextsAreReleased` | internal/server/server.go:449-460 | in every reachable state the context of every finished tools/call has been cancelled |
| `EngineShutdown.StepFalls` | internal/server/server.go:297-345 | once the receive loop has returned every step lowers the measure |
| `EngineShutdown.DrainIsBounded` | internal/server/server.go:297-345 | so every run from there is at most that long |
| `EngineShutdown.DrainTerminates` | internal/server/server.go:297-345 | and Run can always return, without the time-out, assuming handlers return |
| `EngineLedger.CancelHitsTheRequest` | internal/protocol/cancellation.go:79-94 | while unfinished requests have distinct keys, a cancel notification for an unfinished request not yet hit finds exactly that one, and its context is cancelled next |
| `EngineLedger.CancelHitsOnlyThatKey` | internal/protocol/cancellation.go:79-94 | whatever ids clients use, a cancel notification fires only an unfinished tools/call with that key, and otherwise changes nothing |
| `EngineLedger.IdleLedgerIsEmpty` | internal/protocol/cancellation.go:63-107 | in every reachable state, duplicate ids included, each ledger key is the key of an unfinished tools/call, so the ledger is empty whenever there is none |
| `EngineLedger.DoneKeepsOthersIff` | internal/protocol/cancellation.go:99-107 | the deferred Done leaves every other request's entry in place if and only if the entry under its key is its own or absent |
| `EngineReach.AlwaysReachableIff` | internal/protocol/cancellation.go:63-107 | over every run, duplicate ids included: after every step each unfinished entered request is found under its key, was hit, is cancelled or is about to be by the Register that displaced it, if and only if no Done along the run removed another request's entry |
| `EngineReach.DistinctKeysSuffice` | internal/server/server.go:385-460 | in particular while unfinished requests have distinct keys |
| `EngineLedger.DuplicateIdLosesCancel` | internal/server/server.go:385-460 | from every initial state a run with one id used twice: the first request is cancelled by the second, and the second, still queued, can no longer be reached |
| `Servers.Server.Receive` | internal/server/server.go:362-427 | in place: one trip of the receive loop, with ledger, counters, queue or fallback |
| `Servers.Server.RunJob` | internal/server/server.go:449-460 | in place: the deferred ledger, context and counter updates |
| `Servers.Server.RunOnLoop` | internal/server/server.go:465-472 | in place: a non-tools/call frame, with the cancel notification's ledger access |
| `Servers.Server.Work` | internal/server/server.go:432-437 | the worker loop finishes every queued job and leaves the queue empty |
| `Servers.ReceivedIsRun` | internal/server/server.go:362-427 | an uninterrupted trip of the receive loop is a run of the engine |
| `Servers.WorkedIsRun` | internal/server/server.go:432-460 | an uninterrupted worker loop is a run of the engine |
| `Framing.LineReader.ReadBytes` | internal/transport/stdio.go:98-98 | the loop returns the bytes up to and including the first LF, or all that is left with the error the input ends in |
| `Framing.LineReader.ReadLoop` | internal/transport/stdio.go:95-152 | what successive Reads deliver is the sequence of frames of the input, and only the last send carries an error, EOF or another one; if the connection is closed after so many sends, exactly that many frames, a prefix |
| `Framing.Conn.Write` | internal/transport/stdio.go:157-188 | a write on an open connection appends payload and LF in one piece, or as much of it as the underlying writer took before it failed; a cancelled context and a closed connection append nothing |
| `Framing.RoundTripIff` | internal/transport/stdio.go:95-207 | the reader recovers exactly the payloads written, in write order, if and only if none contains LF or ends in CR |
| `Framing.StreamReads` | internal/transport/stdio.go:95-207 | payloads without LF are read one by one, each as it is or without the one CR it ends in; what follows the last LF is read the same way at EOF unless nothing is left of it, and lost on another read error |
| `Framing.FailedWriteGlues` | internal/transport/stdio.go:95-188 | after a write that failed part way, the reader gets the payloads before it, that part glued to the next payload, and the payloads after it, if and only if all these are free of LF and of a CR at the end |

## Left out

- The HTTP provider, image decoding, handler bodies and the JSON, base64 and multipart encodings: a handler is a step that returns any result, and a frame is what its envelope shows.
- `MemoryStore.List`, `Filter.matches` and the list, get-result and cancel tool handlers: a filter, a library sort and thin wrappers over modelled calls.
- Argument validation and `buildRequestSummaryFromParams`: the submit handler is modelled from its call of `Store.Submit` on, and the request summary is one opaque string.
- A nil TransitionFn, and a TransitionFn that reads the store: an edit is a total function from the task to a task or a refusal.
- The panic on an id collision: `MemoryStores.MemoryStore.Submit` and the step `SubmitTask` take an id the store has not seen, as the generator promises; `TaskIDs.PrintInjective` says when that holds.
- `handlerForKind`'s error branch: a task's kind was already validated by Submit, so it cannot be taken.
- Real file-system calls: the directory is a map with atomic replace and delete, any operation may fail as a whole, and files that cannot be read or parsed are absent from the listing.
- The path and permission checks at the start of NewDisk.
- The rest of a Cancel, Wait or submit call racing with others is in the step system; the object methods of the same names execute without interruption.
- The done channel is a flag on the record, and a set of released ids in the step systems; a later replay into the same store would reopen an id.
- `Dispatchers.Dispatcher.Close`: does not model the wait for the workers, because that is the drain of `DispatchShutdown.DrainTerminates`.
- `LostOrder.RewriteKeepsRetentionIff`: is stated for an open store with a free queue slot, because a store that admits nothing may have no further run that evicts; that a time that fits is enough (`LostOrder.RewrittenRetains`) needs neither.
- `Replay.AllSettledIff`: is stated for distinct ids among the manifests read, which file names equal to ids give; with a duplicate id the listing order decides which copy is loaded.
- `Replay.ReplayAgrees`: speaks of records held in memory, because replay trims memory without deleting manifests and the directory may hold more.
- `Framing.LineReader.ReadLoop`: does not model a Read that returns because its own context or Close wins its select while a line is waiting; it says what the loop offers to Read.
- Request time-outs and the shutdown grace period are free choices of the step systems; no duration is modelled.
- That the engine has returned before `Close` is called is the order of statements in `cmd/vision-mcp/main.go:140-151`; the two step systems are not composed.
- `normalizeID` on numbers: a number is known by the text Go prints for it; that different numbers print differently is assumed.
- Logging, metrics accessors, configuration loading, tool schemas, and the retry package, which is not on the server path.
