# Verified model of torch_musa

A Dafny model of the parts of torch_musa whose correctness rests on argument rather than on
checks: the manager of MUSA graph trees, and five smaller algorithms around it.

**Graph trees** (`Storages`, `PathIndices`, `TreeState`, `PathOps`, `Checkpoints`, `Recordings`,
`RecordingProofs`, `Replays`, `ReplayProofs`, `Acceptance`, `Warmups`, `Calls`, `CallProofs`,
`CallEffects`, `Dispatch`, `Runs`, `RerecordLimit`, `Charging`, `RunHistory`, `Decisions`, `Results`,
`AliasedReplay`, `FailingRun`, `TreeManager`, `PoolCheck`). The manager keeps a forest of recorded
graphs over one memory pool. `TreeState` has its state and the invariant; each step (user code
dropping references, ending a path, the checkpoint, recording, warmup, replay, a whole call) is a
function on states with a proof that it keeps the invariant; `Runs` puts events together to
arbitrary runs. `RunHistory`, `Charging`, `Decisions` and `Results` tell runs by their events: which
call recorded a node and at which addresses, what is charged, when a path may be dropped, what
callers hold. The class `TreeManager` has the manager's fields and methods, and each method is
proved against its step. A call is described by the states it goes through (its trail), so that the
moves of the current path inside one call can be stated.

**Profiler** (`SelfTime`, `QueueDepth`), **lazy seeding** (`SeedTracker`), **source conversion**
(`TextRewriting`, `Converter`), **code generation** (`OpMerge`, `HeaderGen`).

## How the runtime is represented

- A storage is a number. What keeps it alive is a heap of three parts: the output tensor object,
  other tensors, and the tensor in an output cache. Weak references and use counts are defined on it.
- The pool maps allocated addresses to the storage that owns the block.
- User code is any change of references in which nothing is held that was not held before or is
  a new storage (`Follows`). It may come between any two calls, in any number.
- Code run in the pool (`PoolRun`, `RecordingRun`, `WarmupRun`): it keeps only what it was given or
  made; its outputs are held; an output in the pool is a live storage of the path at its address or
  new memory at an address that is not allocated; new storages and new addresses correspond; it never
  writes a block that stays allocated throughout; only its outputs stay allocated when it ends.
- Restoring a checkpoint sets the allocated addresses to the recorded ones and gives the listed live
  storages the ownership of their blocks.
- An input list is passed with the references held outside it, so that clearing an entry has its
  effect on liveness.

## Findings

- `preserved_aliased_inputs` is filled at lines 997-1000 and 1567 of
  `torch_musa/_inductor/musagraph_trees.py` but never read: `check_invariants` clears every managed
  input (lines 1989-1990), also one that an output of the node aliases. An accepted child can then not
  be rebuilt. `AliasedReplay.ReplaySucceedsIff` gives the exact condition on the caller's references, and
  `FailingRun.RunEndsInFailure` a run from the initial state that ends in such a call. The same run shows
  that what is taken for granted of recordings can be met.
- Queue depth: events that offer a start in microseconds are sorted by it but swept by nanoseconds.
  `QueueDepth.MicrosecondsMiscount` shows a wrong depth, `QueueDepth.DepthIsCountIff` exactly when the
  depth is the counted one, and `QueueDepth.DepthCounts` that it always is with nanoseconds alone.
- Seeds are drained behind all other queued calls. `SeedTracker.DrainedAtIff` says exactly which
  generators then end differently from running the calls in order; `SeedTracker.SeedOvertakesState` is one.
- Of the two rules that shrink attributes in imports, the one for `torch.cuda` never applies
  (`Converter.CudaRuleIsDead`).

## Model

| member | source | states |
|---|---|---|
| `Runs.RunIsValid` | torch_musa/_inductor/musagraph_trees.py:2282-2472 | in every run from the initial state, through any interleaving of user code, generation changes and calls, also past calls whose test raises, every state satisfies the invariant (tables, aliases, flags, tracking, allocator) |
| `Runs.RunNeverClobbers` | torch_musa/_inductor/musagraph_trees.py:1929-1999 | in every run, when a call replays a node, each path output still live after its inputs are cleared was live before and after that node was recorded, and its address was never handed to the recorded kernels |
| `Runs.RunKeepsPoolExact` | torch_musa/_inductor/musagraph_trees.py:2882-2926 | in every run the pool holds exactly the live path storages, each owning its block, while recording or warming up (and no path node holds a cached tensor then), and nothing otherwise |
| `Runs.RunKeepsFastLiveness` | torch_musa/_inductor/musagraph_trees.py:1452-1457 | in every run the queries over the slots that were live at recording agree with a scan of every slot of the path |
| `Runs.RunMovesPathsLegally` | torch_musa/_inductor/musagraph_trees.py:2667-2758 | in every run a call moves through states that keep the path, extend it by one node, or abandon it only when nothing on it is live or its generation is over; other events keep it |
| `Runs.RunKeepsPathShape` | torch_musa/_inductor/musagraph_trees.py:2655-2665 | in every run the state names the kind of the current node, a path is graph nodes then warmup nodes, and ids of the two kinds never collide |
| `RerecordLimit.RunRespectsLimit` | torch_musa/_inductor/musagraph_trees.py:2451-2462 | with module inlining off, over any run each (node, function) is charged at most `limit` recordings and its counter stays within limit + 1; what has to be charged is stated by addresses in `Charging.CallChargesWhatIsDue` and `Charging.RunBoundsUnexpected` |
| `RerecordLimit.PastLimitRunsEagerly` | torch_musa/_inductor/musagraph_trees.py:2348-2380 | once past the limit at a site, every later call made there runs eagerly |
| `RerecordLimit.CountsNeverFall` | torch_musa/_inductor/musagraph_trees.py:2451-2454 | counters never fall along a run |
| `RerecordLimit.CallCounts` | torch_musa/_inductor/musagraph_trees.py:2451-2465 | one call, re-entry included, raises at most one counter, by one, and only one within the limit |
| `Charging.RunBoundsUnexpected` | torch_musa/_inductor/musagraph_trees.py:2451-2462 | with module inlining off, in every run a function is recorded at most `limit` times at a site where a child has a managed (or, when statics re-record, a static) input that is not at its recorded address |
| `Charging.CallChargesWhatIsDue` | torch_musa/_inductor/musagraph_trees.py:2410-2462 | a recording is charged if and only if a child of the site where the call was decided is refused for such an address, and to that site; the site is that of the roots where the call started over |
| `Charging.ProbeFlagIff` | torch_musa/_inductor/musagraph_trees.py:2415-2428 | probing without a match reports an unexpected mismatch exactly when some probed child is refused for an address |
| `Charging.CallEagerReason` | torch_musa/_inductor/musagraph_trees.py:2374-2380 | a call runs eagerly only where a foreign mutation was noted or the counter is past the limit |
| `PoolCheck.RunPoolAgrees` | torch_musa/_inductor/musagraph_trees.py:1610-1614 | in every run the debug comparison of pool and live storages passes in every recording or warmup state |
| `RunHistory.RunRecorder` | torch_musa/_inductor/musagraph_trees.py:2495-2535 | every node of every run was made by one of its calls, run in a state with the nodes of the state before the call, and its record is still the one that call left |
| `RunHistory.RunReplaysWhereRecorded` | torch_musa/_inductor/musagraph_trees.py:1184-1225 | in every run, when a call replays a node, each input that came from the path in the call that recorded it, and each static input, is a tensor at the address it had in that call |
| `RunHistory.RunRefusesByAddress` | torch_musa/_inductor/musagraph_trees.py:1947-1983 | in every run the pointers of a node differ from those it remembers exactly when an input that came from the path (or a static one) in the call that recorded it is not at the address it had in that call |
| `RunHistory.RunNeverOverwrites` | torch_musa/_inductor/musagraph_trees.py:1985-1998 | in every run, when a call replays a node, no live output of the path is at an address that the recording call gave to its kernels |
| `RunHistory.RunHandsOut` | torch_musa/_inductor/musagraph_trees.py:1298-1315 | in every run, after a replay every tracked output of the node is live in the state the call ends in, so the path is not dead |
| `Results.RunHandsBack` | torch_musa/_inductor/musagraph_trees.py:1459-1614 | in every run, after a recording or a warmup every output of the function is held, and every output that the new node watches is live at its address at the end of the path |
| `Results.RunLeavesReferences` | torch_musa/_inductor/musagraph_trees.py:2359-2403 | in every run, a call that runs its function leaves held exactly what the function left held; run eagerly it leaves path and weak references alone |
| `RunHistory.ForwardWaits` | torch_musa/_inductor/musagraph_trees.py:2301-2311 | in every run, after a forward call returns the pending flag is up until a backward call returns or `set_to_running_backward` |
| `RunHistory.WaitHasForward` | torch_musa/_inductor/musagraph_trees.py:2301-2311 | conversely, where the flag is up some forward call returned, and nothing since has ended its wait |
| `RunHistory.RunKeepsForWaiting` | torch_musa/_inductor/musagraph_trees.py:2681-2691 | in every run with no step marked, between a forward call and its backward no step within any call drops a path that has a live output |
| `RunHistory.RunKeepsGenerationPath` | torch_musa/_inductor/musagraph_trees.py:2667-2691 | in every run no path with a live output is dropped in the generation of the call that last extended it |
| `RunHistory.RunGenerations` | torch_musa/_inductor/musagraph_trees.py:2670-2679 | in every run marking a step begins a new generation; a new invocation begins one exactly if no step was ever marked and its number is another; nothing else does |
| `RunHistory.SettleEndsIff` | torch_musa/_inductor/musagraph_trees.py:2693-2758 | a recorded or warmed-up path is ended by the next call exactly when its generation is over (and steps are marked or no forward waits) or nothing on it is live |
| `RunHistory.ExecutionEndsIff` | torch_musa/_inductor/musagraph_trees.py:2714-2731 | so is a replayed path, exactly then, when it is asked to end |
| `RunHistory.CallWarmsUpOnlyIf` | torch_musa/_inductor/musagraph_trees.py:2382-2403 | a call warms its function up only if that was never done and is not skipped, or behind another warmup, or if warmups are forced |
| `Decisions.RunNeedsNoWarmup` | torch_musa/_inductor/musagraph_trees.py:2382-2403 | in every run a function is recorded or replayed only if warmups are not forced and, unless they are skipped, a call warmed it up before |
| `Decisions.MutationSticks` | torch_musa/_inductor/musagraph_trees.py:2370-2380 | in every run, once a foreign mutation was noted at a site, every later call made there runs eagerly |
| `Decisions.RunRecordsBehindPath` | torch_musa/_inductor/musagraph_trees.py:2434-2472 | in every run a node is recorded at the root or behind a path that has a live output and whose generation is not over (or whose forward still waits, with no step marked) |
| `RunHistory.RunListsChildren` | torch_musa/_inductor/musagraph_trees.py:2527-2530 | in every run each node is listed under its parent and function, in recording order |
| `RunHistory.RunKeepsFlagsExact` | torch_musa/_inductor/musagraph_trees.py:1616-1623 | in every run an output may be cached exactly if it introduced its address and no recorded output of its node or of any node behind it aliases it |
| `CallEffects.RunCallEffects` | torch_musa/_inductor/musagraph_trees.py:2282-2307 | what one call changes: a recording adds one node, its flags and its place among the children, other outcomes none; the generation is noted when the path is extended; a call that does not fail ends with the flag up for Forward, down for Backward, as before for Inference; nothing has changed yet when the path is dropped |
| `CallProofs.CallIsLegal` | torch_musa/_inductor/musagraph_trees.py:2359-2472 | every call from a valid state goes through valid states only, by legal path moves |
| `CallProofs.FirstMatchWins` | torch_musa/_inductor/musagraph_trees.py:2406-2427 | probing stops at the first child in recording order that passes (or raises), and reports no match only if none does |
| `Acceptance.AcceptedIff` | torch_musa/_inductor/musagraph_trees.py:1929-1999 | a child is accepted if and only if no pointer moved, what was live after the parent and dead when its recording began is dead now, and what died during its recording is dead once its inputs are cleared |
| `Acceptance.RefusedForPointerIff` | torch_musa/_inductor/musagraph_trees.py:1947-1983 | in terms of the call that recorded the node: exact conditions for both pointer statuses, so a list with the recorded addresses is never refused for a pointer |
| `Acceptance.ReplayedWhereRecorded` | torch_musa/_inductor/musagraph_trees.py:1207-1225 | a replay that is not refused for moved statics has every static input at its recorded address, whether or not statics re-record |
| `Acceptance.RecordedPositions` | torch_musa/_inductor/musagraph_trees.py:983-1005 | a recording remembers exactly the inputs that came from the path, and with them the static positions |
| `Dispatch.MatchIsReplayed` | torch_musa/_inductor/musagraph_trees.py:2415-2421 | a call that comes to its children replays the first one that passes, or raises in it: it never records the function again |
| `Dispatch.RecognisedIff` | torch_musa/_inductor/musagraph_trees.py:2313-2318 | a tensor is recognised exactly if it is at the address of an output of the path, which has to be live behind a warmup node |
| `Dispatch.MutatesOutsideIff` | torch_musa/_inductor/musagraph_trees.py:2323-2339 | the mutation test holds exactly when some mutated input is neither static nor at the address of an output of the path |
| `Dispatch.MutationRunsEagerly` | torch_musa/_inductor/musagraph_trees.py:2370-2380 | the first call of a function at a site runs eagerly if it mutates such an input |
| `Dispatch.RecordsNoOutsideMutation` | torch_musa/_inductor/musagraph_trees.py:2441-2446 | what is recorded after probing mutates no such input |
| `CallProofs.TryEndExecutionStep` | torch_musa/_inductor/musagraph_trees.py:2714-2731 | ending a replayed path is legal and keeps the invariant |
| `CallProofs.TryEndAllocatingStep` | torch_musa/_inductor/musagraph_trees.py:2693-2758 | ending a recorded or warmed-up path is legal, and leaves the pool empty when it does end |
| `TreeManagers.TreeManager.Run` | torch_musa/_inductor/musagraph_trees.py:2282-2307 | the outcome and the final state are those of the call specification, whose flag is tied to the modes by `CallEffects.RunCallEffects`; the invariant holds again, and the recursion ends |
| `TreeManagers.TreeManager.RunCurrent` | torch_musa/_inductor/musagraph_trees.py:2359-2404 | settle, hint, limit, warmup, recording and replay branches refine the specification |
| `TreeManagers.TreeManager.ReplayOrRecord` | torch_musa/_inductor/musagraph_trees.py:2406-2439 | the first matching child is replayed; a raised test raises; without a match the call starts over or records |
| `TreeManagers.TreeManager.StartOverOrRecord` | torch_musa/_inductor/musagraph_trees.py:2429-2439 | the call is repeated from the roots only once the path has ended; otherwise it goes on to record |
| `TreeManagers.TreeManager.AfterProbing` | torch_musa/_inductor/musagraph_trees.py:2441-2472 | mutation re-check, charge, limit, end of execution, checkpoint, recording |
| `TreeManagers.TreeManager.ProbeChildNodes` | torch_musa/_inductor/musagraph_trees.py:2406-2428 | the answer is the specified probe, whose flag `Charging.ProbeFlagIff` ties to addresses; failed probes leave the input list unchanged, and an accepted child has its managed inputs cleared |
| `TreeManagers.TreeManager.CheckNode` | torch_musa/_inductor/musagraph_trees.py:1929-1999 | the status of the four tests in order, which `Acceptance.AcceptedIff` and `Acceptance.RefusedForPointerIff` give by addresses and liveness; the list is changed only when the last test is reached |
| `TreeManagers.TreeManager.CheckForMutation` | torch_musa/_inductor/musagraph_trees.py:2313-2339 | some mutated input is neither static nor an output the current node recognises |
| `Storages.LiveIffHeld` | torch_musa/_inductor/musagraph_trees.py:605-639 | with the extra-reference check installed exactly while a cache holds the tensor, a weak reference is live exactly when something other than a cache holds the storage |
| `Storages.LivenessNeedsTheDiscipline` | torch_musa/_inductor/musagraph_trees.py:623-629 | where check and cache disagree, an abandoned storage looks alive |
| `PathIndices.GetDifferentIndices` | torch_musa/_inductor/musagraph_trees.py:1742-1755 | the nested scan lists the positions where two liveness tables differ |
| `PathIndices.DifferentIndicesMember` | torch_musa/_inductor/musagraph_trees.py:1742-1755 | a position is listed exactly when the two tables differ there |
| `PathOps.FastLivenessIsExact` | torch_musa/_inductor/musagraph_trees.py:1838-1842 | in every sound state the fast queries find exactly the live slots of the path |
| `PathOps.LivenessFalls` | torch_musa/_inductor/musagraph_trees.py:1757-1764 | user code brings no path slot back to life |
| `PathOps.UserStepValid` | torch_musa/_inductor/musagraph_trees.py:605-639 | dropping references keeps the invariant, the allocator included |
| `TreeManagers.TreeManager.CheckLiveness` | torch_musa/_inductor/musagraph_trees.py:1725-1735 | the loop decides whether all listed slots are dead |
| `TreeManagers.TreeManager.ScanPath` | torch_musa/_inductor/musagraph_trees.py:844-852 | the scan of a warmup node lists every slot of the path |
| `TreeManagers.TreeManager.OutputsAreDead` | torch_musa/_inductor/musagraph_trees.py:1452-1457 | refines the fast query of the current node |
| `TreeManagers.TreeManager.LiveWeakrefs` | torch_musa/_inductor/musagraph_trees.py:1838-1842 | refines the fast list of live weak references |
| `PathOps.DeallocEmptiesPool` | torch_musa/_inductor/musagraph_trees.py:2807-2868 | the addresses of the live weak references are exactly the pool, so freeing them empties it |
| `PathOps.EndFreedPath` | torch_musa/_inductor/musagraph_trees.py:2693-2712 | freeing and forgetting a recorded or warmed-up path keeps the invariant |
| `PathOps.EndDeadPath` | torch_musa/_inductor/musagraph_trees.py:2732-2758 | a path without live outputs can be forgotten with nothing left allocated |
| `TreeManagers.TreeManager.FreeEach` | torch_musa/_inductor/musagraph_trees.py:2859-2868 | each storage is freed once however often it is listed, and only by its owner |
| `TreeManagers.TreeManager.DeallocCurrentPathWeakrefs` | torch_musa/_inductor/musagraph_trees.py:2807-2868 | the pool is empty afterwards |
| `TreeManagers.TreeManager.TryEndCurrRecording` | torch_musa/_inductor/musagraph_trees.py:2693-2712 | refines the end of a recorded path |
| `TreeManagers.TreeManager.TryEndCurrWarmup` | torch_musa/_inductor/musagraph_trees.py:2732-2758 | refines the end of a warmed-up path |
| `TreeManagers.TreeManager.TryEndCurrExecution` | torch_musa/_inductor/musagraph_trees.py:2714-2731 | refines the end of a replayed path |
| `Checkpoints.CachingIsInvisible` | torch_musa/_inductor/musagraph_trees.py:1844-1860 | dropping cached tensors of any nodes changes the liveness of no slot anywhere |
| `Checkpoints.DeadAddressesExact` | torch_musa/_inductor/musagraph_trees.py:1819-1836 | an address is deleted exactly when a slot with it was live when the node was recorded and is dead now |
| `Checkpoints.DeletesOnlyDead` | torch_musa/_inductor/musagraph_trees.py:2903-2917 | no live address is deleted, and every deleted one is in the restored checkpoint |
| `Checkpoints.RestoredPoolExact` | torch_musa/_inductor/musagraph_trees.py:2882-2917 | restore and delete make the pool exact for the path |
| `Checkpoints.CheckpointReady` | torch_musa/_inductor/musagraph_trees.py:2882-2926 | after the step the allocator reflects the path exactly and the path is free of caches |
| `TreeManagers.TreeManager.RemoveNodeCachedTensors` | torch_musa/_inductor/musagraph_trees.py:1844-1856 | one node loses its cached tensors and the checks that went with them |
| `TreeManagers.TreeManager.RemovePathCachedTensors` | torch_musa/_inductor/musagraph_trees.py:1858-1860 | so do all nodes of the path |
| `TreeManagers.TreeManager.DataPtrsDeadSinceInvocation` | torch_musa/_inductor/musagraph_trees.py:1819-1836 | lists exactly the dead addresses |
| `TreeManagers.TreeManager.DeleteEach` | torch_musa/_inductor/musagraph_trees.py:2903-2917 | deletes each listed address once; all were allocated |
| `TreeManagers.TreeManager.ApplyCheckpointExecutionStateInAllocator` | torch_musa/_inductor/musagraph_trees.py:2882-2926 | refines the checkpoint step and ends in a state fit for recording |
| `RecordingProofs.ClassifiedAt` | torch_musa/_inductor/musagraph_trees.py:1530-1579 | each output is static, aliases a live path output at its address, aliases the first earlier output at its address, or is the first there |
| `RecordingProofs.AliasOfLiveSpec` | torch_musa/_inductor/musagraph_trees.py:1712-1723 | the search finds a live path output at the address exactly when there is one |
| `RecordingProofs.RecordedPoolExact` | torch_musa/_inductor/musagraph_trees.py:1602-1614 | after a recording the pool is exact for the longer path |
| `RecordingProofs.RecordedSameStorage` | torch_musa/_inductor/musagraph_trees.py:1530-1579 | along the longer path equal addresses mean equal storages, and conversely |
| `RecordingProofs.RecordedDeadAfter` | torch_musa/_inductor/musagraph_trees.py:1522-1526 | the second index list holds exactly the outputs that died during the recording |
| `RecordingProofs.RecordedDeadBefore` | torch_musa/_inductor/musagraph_trees.py:1068-1077 | the first index list holds exactly the outputs live after the parent and dead when recording began |
| `RecordingProofs.RecordValid` | torch_musa/_inductor/musagraph_trees.py:2495-2535 | recording keeps the invariant and extends the path by the new node |
| `TreeManagers.TreeManager.FindLive` | torch_musa/_inductor/musagraph_trees.py:1712-1723 | refines the search for a live output at an address |
| `TreeManagers.TreeManager.MarkPriorGraphOutputAsAliased` | torch_musa/_inductor/musagraph_trees.py:1616-1623 | the slot carries no check at that point, so only the flag changes |
| `TreeManagers.TreeManager.ClassifyOutputs` | torch_musa/_inductor/musagraph_trees.py:1530-1579 | one pass classifies all outputs, their cache flags and the flags of ancestors |
| `TreeManagers.TreeManager.LivenessBefore` | torch_musa/_inductor/musagraph_trees.py:1068-1077 | liveness on entry and what died since the parent |
| `TreeManagers.TreeManager.RunRecording` | torch_musa/_inductor/musagraph_trees.py:1459-1614 | the record, flags, weak references, references and blocks of a recording |
| `TreeManagers.TreeManager.RecordFunction` | torch_musa/_inductor/musagraph_trees.py:2495-2535 | the manager after a recording is the specified one |
| `Warmups.WarmupValid` | torch_musa/_inductor/musagraph_trees.py:744-830 | a warmup keeps the invariant, the exact pool included, and extends the path by a warmup node |
| `Dispatch.WarmupTracksIff` | torch_musa/_inductor/musagraph_trees.py:797-826 | a warmup node tracks exactly the tensors with an address whose storage is neither a constant nor that of an input from outside the live path |
| `TreeManagers.TreeManager.TrackOutputs` | torch_musa/_inductor/musagraph_trees.py:797-826 | a warmup node tracks the outputs that are not storages from outside the path |
| `TreeManagers.TreeManager.RunEager` | torch_musa/_inductor/musagraph_trees.py:2545-2584 | the manager after a warmup is the specified one |
| `ReplayProofs.AcceptedLiveness` | torch_musa/_inductor/musagraph_trees.py:1929-1999 | an ancestor output live when a child is accepted was live before and after the child was recorded |
| `ReplayProofs.ReplayNeverClobbers` | torch_musa/_inductor/musagraph_trees.py:1985-1998 | its address is none the child writes |
| `ReplayProofs.NewOutputTarget` | torch_musa/_inductor/musagraph_trees.py:1413-1426 | an output that aliases a new output points to an earlier, unaliased and uncached one at the same address |
| `ReplayProofs.PriorSlot` | torch_musa/_inductor/musagraph_trees.py:1418-1422 | an aliased output of an ancestor is uncached and reachable |
| `ReplayProofs.ReplayPreservesAliases` | torch_musa/_inductor/musagraph_trees.py:1317-1373 | two rebuilt outputs share a storage exactly when their recorded addresses are equal |
| `ReplayProofs.ReplaySharesWithAncestors` | torch_musa/_inductor/musagraph_trees.py:1375-1446 | a rebuilt output shares an ancestor output's storage exactly when at its address |
| `ReplayProofs.ReplayValid` | torch_musa/_inductor/musagraph_trees.py:1264-1315 | a replay keeps the invariant and extends the path; what it hands out is in `ReplayProofs.ReplayedHeld` and `ReplayProofs.ReplayedOutputsLive` |
| `ReplayProofs.ReplayedHeld` | torch_musa/_inductor/musagraph_trees.py:1317-1373 | after a replay a storage is held exactly if it was held outside the input list or it is the storage of one of the outputs of the node, cached or not |
| `ReplayProofs.ReplayedOutputsLive` | torch_musa/_inductor/musagraph_trees.py:1336-1348 | after a replay every tracked output of the node is live at the end of the path |
| `TreeManagers.TreeManager.InitializeCachedTensors` | torch_musa/_inductor/musagraph_trees.py:1625-1674 | a cache entry and a checked slot for exactly the flagged outputs |
| `TreeManagers.TreeManager.ReconstructOutputs` | torch_musa/_inductor/musagraph_trees.py:1317-1373 | rebuilds the row of weak references; it stops at the first output whose aliased storage is gone, and the row is what was rebuilt until then |
| `TreeManagers.TreeManager.ExecuteNode` | torch_musa/_inductor/musagraph_trees.py:2537-2543 | the manager after a replay is the specified one, which holds all outputs of the node (`ReplayProofs.ReplayedHeld`), and so is the half-entered node that a replay leaves when it raises |
| `TreeManagers.TreeManager.RunGraph` | torch_musa/_inductor/musagraph_trees.py:1298-1315 | outputs are rebuilt and handed out, cached ones included (`ReplayProofs.ReplayedHeld`), or the rebuild stops at the first output whose aliased storage is gone |
| `TreeManagers.TreeManager.ClearCurrentPathStateAndSetToNone` | torch_musa/_inductor/musagraph_trees.py:2877-2880 | only ever called at a graph node |
| `AliasedReplay.ReplaySucceedsIff` | torch_musa/_inductor/musagraph_trees.py:1988-1998 | an accepted child is replayed if and only if each earlier storage that an output aliases is referenced outside the cleared inputs |
| `AliasedReplay.AcceptedButNotReplayable` | torch_musa/_inductor/musagraph_trees.py:997-1000 | a concrete valid state in which a child is accepted and yet cannot be rebuilt |
| `FailingRun.RunEndsInFailure` | torch_musa/_inductor/musagraph_trees.py:1988-1998 | a concrete run (two recordings, references dropped, a new generation, a replay) after which a call passes every test of its child and then raises |
| `PoolCheck.GetBlockAddrs` | torch_musa/_inductor/musagraph_trees.py:2016-2040 | the walk lists exactly the addresses at which (live) blocks start |
| `PoolCheck.CheckMemoryPool` | torch_musa/_inductor/musagraph_trees.py:2054-2125 | passes exactly when no active address repeats and the active addresses are the live ones; for disjoint segments with positive sizes, exactly when the two sets are equal; errors name the right addresses |
| `PoolCheck.AddrsExact` | torch_musa/_inductor/musagraph_trees.py:2030-2040 | the walk behind both functions lists an address exactly when a block starts there |
| `PoolCheck.AddrsOnce` | torch_musa/_inductor/musagraph_trees.py:2030-2040 | disjoint segments with positive sizes give no address twice |
| `PoolCheck.ReadyPoolAgrees` | torch_musa/_inductor/musagraph_trees.py:2918-2921 | whenever the allocator reflects the path the check passes |
| `SelfTime.ComputeSelfTime` | torch_musa/profiler/_utils.py:34-54 | fails exactly on a repeated id; otherwise every event has its one entry with duration less its children's, and self times sum to the root durations |
| `QueueDepth.IndexOfFirstMatch` | torch_musa/profiler/_utils.py:92-97 | the first kernel with the correlation from a position on, or none |
| `QueueDepth.MapLaunches` | torch_musa/profiler/_utils.py:89-99 | each launch is matched from the last matched kernel on, and positions never decrease |
| `QueueDepth.Sweep` | torch_musa/profiler/_utils.py:101-148 | intervals and operator depths with the pointer equal to the kernels started by the latest start seen |
| `QueueDepth.ComputeQueueDepth` | torch_musa/profiler/_utils.py:56-148 | the whole computation on filtered and sorted events |
| `QueueDepth.PointerIsCountIff` | torch_musa/profiler/_utils.py:134-140 | the pointer counts the kernels started by the event exactly when no kernel starts after it and by the latest start seen before it |
| `QueueDepth.DepthIsCountIff` | torch_musa/profiler/_utils.py:134-142 | for every list the reported depth is max(0, last spawned + 1 - kernels started by the event) exactly when no kernel starts between the event and the latest start before it, or the last spawned kernel has started |
| `QueueDepth.DepthCounts` | torch_musa/profiler/_utils.py:101-148 | the same for the list of every trace; it always holds with nanoseconds alone, and the last spawned kernel is the greatest position launched so far if launches are listed in order |
| `QueueDepth.RoundedKeysRise` | torch_musa/profiler/_utils.py:106-115 | launches are listed in order if all offer their start rounded down to microseconds |
| `QueueDepth.MicrosecondsMiscount` | torch_musa/profiler/_utils.py:106-121 | a trace with microseconds whose operator gets depth 0 where one launched kernel has not started |
| `QueueDepth.MergedSpawnsRise` | torch_musa/profiler/_utils.py:104-115 | the stable sort keeps launches in order: no later event spawns an earlier kernel |
| `SeedTracker.SeedsDrainExactly` | torch_musa/core/_lazy_init.py:26-47 | for every history of seeding calls, draining the two slots leaves every generator as running the whole history |
| `SeedTracker.LastSeedAllWins` | torch_musa/core/random.py:166-193 | a last `manual_seed_all` before initialization leaves every generator with its seed, whatever was queued before it |
| `SeedTracker.DrainedAtIff` | torch_musa/core/_lazy_init.py:60-74 | with other queued calls among them, a generator ends the same exactly when its device was not both seeded and last written by `set_rng_state` |
| `SeedTracker.SeedOvertakesState` | torch_musa/core/_lazy_init.py:120-137 | a seed followed by `set_rng_state`: in order the state stays restored, drained the seed comes last |
| `SeedTracker.Runtime.LazyCall` | torch_musa/core/_lazy_init.py:60-74 | runs the call now, or keeps it as the tracker does |
| `SeedTracker.Runtime.LazyInit` | torch_musa/core/_lazy_init.py:120-137 | drains the queue, the kept seeds last; for seeds only, the same as running the history |
| `SeedTracker.Runtime.Perform` | torch_musa/core/random.py:156-193 | the effect of a seeding call on the generators |
| `TextRewriting.RewriteIsClean` | torch_musa/utils/musa_converter.py:109-115 | for every text the five ordered replacements leave none of the five keys, across boundaries of inserted text too |
| `TextRewriting.RewriteKeepsIff` | torch_musa/utils/musa_converter.py:109-115 | a text is left alone exactly when it has none of the keys |
| `TextRewriting.ReplaceMakesNo` | torch_musa/utils/musa_converter.py:109-115 | a replacement whose value cannot begin a key makes no new occurrence of it |
| `TextRewriting.RulesMakeNoKeys` | torch_musa/utils/musa_converter.py:55-61 | this holds of every rule and key; `mcc` before `uda` is the one overlap, and there the key was in the text before |
| `TextRewriting.ReplaceRejoins` | torch_musa/utils/musa_converter.py:109-115 | every text is some pieces joined by the key, with no occurrence of it in between, and the replacement is the same pieces joined by the value, with the length that follows |
| `TextRewriting.ReplaceAtFirst` | torch_musa/utils/musa_converter.py:109-115 | the text before the first occurrence stays, the value takes its place, and the rest is treated in the same way |
| `TextRewriting.RewriteKeepsTheRest` | torch_musa/utils/musa_converter.py:109-115 | a text that has exactly one of the keys, once, keeps everything but the key |
| `TextRewriting.WordsBecome` | torch_musa/utils/musa_converter.py:55-61 | the five words alone become `MUSA`, `musa`, `MCCL`, `mccl` and `mcc` |
| `TextRewriting.RewriteText` | torch_musa/utils/musa_converter.py:109-115 | the guarded loop over the rules computes the replacements, whose effect on the text around a key `TextRewriting.ReplaceRejoins` states |
| `Converter.AttributeRoundTrip` | torch_musa/utils/musa_converter.py:34-49 | exactly the strings with a dot become attributes, and the attribute spells the string |
| `Converter.ConvertIsNormal` | torch_musa/utils/musa_converter.py:117-161 | every converted tree is in normal form |
| `Converter.ConvertKeepsIff` | torch_musa/utils/musa_converter.py:117-161 | exactly trees in normal form are left alone, and a second pass changes nothing |
| `Converter.ConvertKeepsOutline` | torch_musa/utils/musa_converter.py:117-141 | a converted tree has the same statements in the same order, each with its own expression converted |
| `Converter.PlainKeepsShape` | torch_musa/utils/musa_converter.py:143-161 | outside imports an expression keeps its shape and each text is rewritten in its place |
| `Converter.ImportShrinksAfter` | torch_musa/utils/musa_converter.py:143-161 | inside imports the texts are rewritten in the same way and attributes are shrunk after that |
| `Converter.CudaRuleIsDead` | torch_musa/utils/musa_converter.py:69-71 | names are rewritten first, so the rule for `torch.cuda` never applies |
| `Converter.ReplacementTransformer.VisitExpr` | torch_musa/utils/musa_converter.py:143-161 | the bottom-up visit with the import flags computes the conversion of an expression |
| `Converter.ReplacementTransformer.Visit` | torch_musa/utils/musa_converter.py:117-141 | flags are down before and after, and the result is the converted tree, in normal form |
| `OpMerge.FlattenDispatch` | tools/codegen/utils.py:14-27 | one entry per key in order; fails exactly for the empty table and for a repeated key |
| `OpMerge.MergeOps` | tools/codegen/gen_torch_musa.py:107-330 | accepted exactly when the input checks hold; kernels, kinds, structure and device settings are the promised ones; every key has a kind and is a musa key, the entry is never structured and a delegate at once, and only a delegate has no kernel |
| `OpMerge.MergedKernels` | tools/codegen/gen_torch_musa.py:188-283 | every kernel of the musa table is in the merged one, and no other is but the CUDA kernel from torch's table for a structured operator left alone |
| `OpMerge.LegacyIffTorchs` | tools/codegen/gen_torch_musa.py:176-283 | a kernel is called torch's own exactly when torch's table has it for the CPU or CUDA key of the family; for the structured key, exactly when the musa entry brings neither kernel nor meta function |
| `OpMerge.LegacyKeepsDevices` | tools/codegen/gen_torch_musa.py:285-324 | an accepted entry with a kernel of torch's own has torch's device check and device guard, defaults counted |
| `OpMerge.RelatedByName` | tools/codegen/model.py:46-70 | the related keys of a musa key are the CPU and the CUDA key of its family, in that order, and no others; only the composite key has none |
| `OpMerge.SortKernels` | tools/codegen/gen_torch_musa.py:188-214 | keys other than the structured one keep their musa kernel, Legacy exactly when torch uses it for a related key |
| `OpMerge.PopOtherKeys` | tools/codegen/gen_torch_musa.py:202-214 | at most the structured key is left over |
| `OpMerge.DecideStructure` | tools/codegen/gen_torch_musa.py:216-283 | the structured kernel, its kind and what stays of the structure |
| `OpMerge.CheckDevices` | tools/codegen/gen_torch_musa.py:285-324 | torch's own kernels pass only under torch's device settings |
| `OpMerge.ShareUnstructuredNativeKernel` | tools/codegen/gen_torch_musa.py:176-186 | whether torch uses the kernel for a related key; asking without related keys is an error |
| `OpMerge.OverrideBackends` | tools/codegen/gen_torch_musa.py:384-399 | the same kernels, in the namespace of their kind; fails exactly on a foreign key or a missing kind |
| `OpMerge.NamespacesOfMerged` | tools/codegen/gen_torch_musa.py:558-573 | for every merged entry the namespace assertion holds, with `at::native` exactly for Legacy |
| `HeaderGen.HeaderGenerator.GenerateFor` | tools/codegen/gen_torch_musa.py:834-902 | for every grouping, every index is as before; meanwhile hidden are exactly the kernels that some group hides given what the groups before it left, all of kind Legacy, never one that needs a declaration; the need for a file is exact |
| `HeaderGen.HeaderGenerator.HideLegacy` | tools/codegen/gen_torch_musa.py:834-876 | each index is split in what stays and what was moved |
| `HeaderGen.HeaderGenerator.GeneratePerOperator` | tools/codegen/gen_torch_musa.py:834-902 | all root names one after the other end with the indices they began with |
| `HeaderGen.MoveLegacy` | tools/codegen/gen_torch_musa.py:838-876 | the nested loops over groups and members move what the groups hide |
| `HeaderGen.ApartHidden` | tools/codegen/gen_torch_musa.py:852-876 | for groups that share no function, a kernel is hidden exactly when its group hides it by itself |
| `HeaderGen.MoveItem` | tools/codegen/gen_torch_musa.py:852-876 | one function or group: what is moved and whether a declaration is needed |

## Left out

- Runs.RunIsValid: a run is followed past a call whose test of a child raises, but not past one that raises inside a node (moved static input, aliased storage gone): `execute_node` has made the node current by then, with weak references of an earlier run.
- TreeManagers.TreeManager.Run: after a call that raised inside a node it states the outcome only; `ExecuteNode` has the state.
- `shutdown`, `TreeManagerContainer`, thread-local state, locks and weak-reference finalizers.
- Foreign code (allocator, streams, graph capture and launch, tensor metadata): only the effects listed above.
- The copying of non-static inputs before a replay: the model only says which inputs are still referenced while outputs are rebuilt.
- `debug_assert_invariants` and the other optional debug checks, apart from the pool comparison.
- Stack traces, warnings, messages, logging and counters that nothing reads.
- QueueDepth.ComputeQueueDepth: an event is a launch, a kernel or neither; one that is both by name and device type is not modelled.
- Converter.ConvertIsNormal: whitespace and parentheses inside a node, which take part in the matching of attributes and modules, are not modelled.
- The insertion of `import torch_musa` into a launch script, file handling and parsing.
- SeedTracker.DrainedAtIff: the current device is fixed, and a restored state counts as different from every seeded one.
- Initialization failures, forked processes and concurrent queueing.
- `rank_events` and `compute_idle_time` of the profiler; the key of an event is its id.
- OpMerge.MergeOps: dispatch keys are taken as parsed, so an empty or unknown key name is not modelled; entries for functions that torch generates itself (`musa_handle_autogen_native_function_info`) are not merged.
- OpMerge.NamespacesOfMerged: how torchgen parses a merged entry into backends is taken from its documented behaviour (one backend per kernel, an implicit composite one for an entry without kernels or delegate).
- HeaderGen.HeaderGenerator.GenerateFor: indices are compared as maps; restoring may change the order of entries. The out function stands for its group, as all indices are built with `use_out_as_primary=True` (`tools/codegen/gen_torch_musa.py`, lines 509-518); an index built otherwise is not modelled.
- File output, templates and the migration of header files.
- Optimizers, distributed code, device, stream and memory wrappers, build scripts.
