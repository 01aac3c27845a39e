/**
 The manager as an object: its fields are updated in place by the methods of the
 source, and each method is proved against the step it implements.
 */
module TreeManagers {
  import opened Options
  import opened Storages
  import opened PathIndices
  import opened TreeState
  import opened PathOps
  import opened Checkpoints
  import opened Recordings
  import opened RecordingProofs
  import opened Replays
  import opened ReplayProofs
  import opened Warmups
  import opened Calls
  import opened CallProofs
  import opened Runs

  class TreeManager {
    const cfg: Config
    var recs: map<GraphId, GraphRecord>
    var warm: map<GraphId, WarmupRecord>
    var slots: Slots
    var unaliased: map<GraphId, seq<bool>>
    var caches: map<GraphId, seq<Option<StorageId>>>
    var children: map<Site, seq<GraphId>>
    var current: Option<GraphId>
    var pathState: ExecutionState
    var currentGen: int
    var pendingBackward: bool
    var warmedUp: set<FunctionId>
    var hints: map<Site, bool>
    var rerecords: map<Site, nat>
    var nextGraph: GraphId
    var nextWarmup: GraphId
    // What the manager asks the runtime about: references, allocator, generation counters.
    var heap: Heap
    var pool: Pool
    var nextStorage: StorageId
    var generation: int
    var markStep: int

    function View(): State
      reads this
    {
      State(recs, warm, slots, unaliased, caches, children, current, pathState, currentGen, pendingBackward,
            warmedUp, hints, rerecords, nextGraph, nextWarmup, heap, pool, nextStorage, generation, markStep)
    }

    constructor (cfg: Config)
      ensures View() == Initial && this.cfg == cfg
    {
      this.cfg := cfg;
      recs, warm, slots, unaliased, caches, children := map[], map[], map[], map[], map[], map[];
      current, pathState, currentGen, pendingBackward := None, NoPath, -1, false;
      warmedUp, hints, rerecords, nextGraph, nextWarmup := {}, map[], map[], 0, -1;
      heap, pool, nextStorage, generation, markStep := Heap({}, {}, map[]), map[], 0, 0, 0;
    }

    // ---------------------------------------------------------------- liveness queries

    /** All of the given slots are dead. */
    method CheckLiveness(h: Heap, path: seq<GraphId>, indices: seq<PathIndex>) returns (dead: bool)
      ensures dead == AllIndexedDead(h, slots, path, indices)
    {
      for k := 0 to |indices|
        invariant forall j :: 0 <= j < k ==> !LiveAt(h, slots, path, indices[j].depth, indices[j].output)
      {
        if LiveAt(h, slots, path, indices[k].depth, indices[k].output) {
          return false;
        }
      }
      return true;
    }

    /** The slots of the given indices that are live, in order. */
    method CollectLive(path: seq<GraphId>, indices: seq<PathIndex>) returns (live: seq<WeakRef>)
      ensures live == LiveAmong(heap, slots, path, indices, |indices|)
    {
      live := [];
      for k := 0 to |indices|
        invariant live == LiveAmong(heap, slots, path, indices, k)
      {
        var p := indices[k];
        if LiveAt(heap, slots, path, p.depth, p.output) {
          live := live + [SlotAt(slots, path, p.depth, p.output)];
        }
      }
    }

    /** Every index of a path: the scan a warmup node makes. */
    method ScanPath(path: seq<GraphId>) returns (indices: seq<PathIndex>)
      ensures indices == AllIndices(slots, path)
    {
      hide EverySlot;
      ghost var bits := EverySlot(slots, path);
      indices := [];
      for d := 0 to |path|
        invariant indices == TrueIndices(bits, d)
      {
        for i := 0 to |RowAt(slots, path[d])|
          invariant |bits[d]| == |RowAt(slots, path[d])|
          invariant indices == TrueIndices(bits, d) + RowIndices(bits[d], d, i)
        {
          assert bits[d][i];
          indices := indices + [PathIndex(d, i)];
        }
      }
    }

    method Consulted() returns (indices: seq<PathIndex>)
      ensures indices == ConsultedIndices(View())
    {
      if current.Some? && current.value in recs {
        indices := recs[current.value].liveAfter;
      } else {
        indices := ScanPath(CurPath(View()));
      }
    }

    method LiveWeakrefs() returns (live: seq<WeakRef>)
      ensures live == PathLiveWeakrefs(View())
    {
      var indices := Consulted();
      live := CollectLive(CurPath(View()), indices);
    }

    method OutputsAreDead() returns (dead: bool)
      ensures dead == AllOutputsAreDead(View())
    {
      var indices := Consulted();
      dead := CheckLiveness(heap, CurPath(View()), indices);
    }

    // ---------------------------------------------------------------- the allocator

    /** Return a block to the pool. Only an allocated block may be. */
    method RawDelete(a: Addr)
      requires a in pool
      modifies this`pool
      ensures pool == old(pool) - {a}
    {
      pool := pool - {a};
    }

    /** Free a storage's block and take its deleter away. Only its owner may. */
    method FreeAndRemoveDeleter(w: WeakRef)
      requires w.ptr in pool && pool[w.ptr] == Some(w.storage)
      modifies this`pool
      ensures pool == old(pool) - {w.ptr}
    {
      pool := pool - {w.ptr};
    }

    /** Free the storages of a list, each once however often it is listed. */
    method FreeEach(live: seq<WeakRef>)
      requires forall w :: w in live ==> w.ptr in pool && pool[w.ptr] == Some(w.storage)
      modifies this`pool
      ensures pool == old(pool) - Addresses(live)
    {
      var deleted: set<Addr> := {};
      for k := 0 to |live|
        invariant deleted == Addresses(live[..k])
        invariant pool == old(pool) - deleted
      {
        assert live[k] in live;
        if live[k].ptr !in deleted {
          deleted := deleted + {live[k].ptr};
          FreeAndRemoveDeleter(live[k]);
        }
        AddressesGrow(live, k);
      }
      assert live[..|live|] == live;
    }

    /** Free every live storage of the path. */
    method DeallocCurrentPathWeakrefs()
      requires Sound(View()) && Ready(View())
      modifies this`pool
      ensures View() == DeallocPath(old(View()))
      ensures pool == map[]
    {
      hide Sound;
      hide Ready;
      hide PathLiveWeakrefs;
      hide Addresses;
      DeallocEmptiesPool(View());
      LiveRefsOwn(View());
      var live := LiveWeakrefs();
      FreeEach(live);
    }

    // ---------------------------------------------------------------- ending a path

    /** Forget the current node. */
    method ForgetCurrentNode()
      modifies this`current, this`pathState
      ensures View() == EndPath(old(View()))
    {
      current, pathState := None, NoPath;
    }

    /** Forget the path of a graph node; a warmup node is never ended this way. */
    method ClearCurrentPathStateAndSetToNone()
      requires AtGraphNode(View())
      modifies this`current, this`pathState
      ensures View() == EndPath(old(View()))
    {
      ForgetCurrentNode();
    }

    method TryEndCurrRecording()
      requires Valid(View()) && View().pathState == Recording
      modifies this`pool, this`current, this`pathState
      ensures View() == TryEndAllocating(old(View()))
    {
      hide Valid;
      hide Sound;
      hide Ready;
      hide AllOutputsAreDead;
      hide DeallocPath;
      hide EndPath;
      hide CanStartNewGeneration;
      hide View;
      AllocatingNode(View());
      DeallocKeepsNode(View());
      hide AtGraphNode;
      if CanStartNewGeneration(View()) {
        DeallocCurrentPathWeakrefs();
        ClearCurrentPathStateAndSetToNone();
        return;
      }
      var dead := OutputsAreDead();
      if dead {
        ClearCurrentPathStateAndSetToNone();
      }
    }

    method TryEndCurrWarmup()
      requires Valid(View()) && View().pathState == WarmingUp
      modifies this`pool, this`current, this`pathState
      ensures View() == TryEndAllocating(old(View()))
    {
      hide Valid;
      hide Sound;
      hide Ready;
      hide AllOutputsAreDead;
      hide DeallocPath;
      AllocatingNode(View());
      if CanStartNewGeneration(View()) {
        DeallocCurrentPathWeakrefs();
        ForgetCurrentNode();
        return;
      }
      assert current.Some?;
      var dead := OutputsAreDead();
      if dead {
        ForgetCurrentNode();
      }
    }

    method TryEndCurrExecution()
      requires Valid(View()) && View().pathState in {NoPath, Executing}
      modifies this`current, this`pathState
      ensures View() == TryEndExecution(old(View()))
    {
      hide Valid;
      hide AllOutputsAreDead;
      NotWarmingUp(View());
      if current.None? {
        return;
      }
      if CanStartNewGeneration(View()) {
        ClearCurrentPathStateAndSetToNone();
        return;
      }
      var dead := OutputsAreDead();
      if dead {
        ClearCurrentPathStateAndSetToNone();
      }
    }

    // ---------------------------------------------------------------- the checkpoint step

    /** Drop a node's cached tensors and the extra-reference checks that went with them. */
    method RemoveNodeCachedTensors(id: GraphId)
      requires id in View().caches && id in View().slots && id in View().unaliased
      modifies this`heap, this`caches, this`slots
      ensures View() == RemoveCached(old(View()), [id])
    {
      hide RemoveCached;
      hide ClearedRow;
      hide CacheEntries;
      hide Uncache;
      OneNodeCleared(View(), id);
      ReleaseCached(caches[id]);
      caches := caches[id := []];
      var cleared := RemoveExtraReferences(slots[id], unaliased[id]);
      slots := slots[id := cleared];
    }

    /** Let go of the tensors in a cache. */
    method ReleaseCached(cache: seq<Option<StorageId>>)
      modifies this`heap
      ensures heap == Uncache(old(heap), CacheEntries(cache, |cache|))
    {
      UncacheNothing(heap);
      for i := 0 to |cache|
        invariant heap == Uncache(old(heap), CacheEntries(cache, i))
      {
        if cache[i].Some? {
          UncacheMore(old(heap), CacheEntries(cache, i), {cache[i].value});
          heap := Uncache(heap, {cache[i].value});
        }
        CacheEntriesGrow(cache, i);
      }
    }

    /** Remove the extra-reference checks of the flagged outputs. */
    static method RemoveExtraReferences(row: Row, flags: seq<bool>) returns (cleared: Row)
      ensures cleared == ClearedRow(row, flags)
    {
      cleared := row;
      for i := 0 to |flags|
        invariant |cleared| == |row|
        invariant forall j :: 0 <= j < |row| ==> cleared[j] == (if j < i then ClearedRow(row, flags)[j] else row[j])
      {
        if flags[i] && i < |row| && row[i].Some? {
          cleared := cleared[i := Some(row[i].value.(extra := false))];
        }
      }
      assert cleared == ClearedRow(row, flags);
    }

    method RemovePathCachedTensors()
      requires forall n :: n in CurPath(View()) ==> n in View().caches && n in View().slots && n in View().unaliased
      modifies this`heap, this`caches, this`slots
      ensures View() == RemoveCached(old(View()), CurPath(old(View())))
    {
      var path := CurPath(View());
      hide RemoveCached;
      hide View;
      hide CurPath;
      NoNodeCleared(View());
      ClearedKeys(View());
      for k := 0 to |path|
        invariant View() == RemoveCached(old(View()), path[..k])
      {
        RemoveNodeCachedTensors(path[k]);
        MoreNodesCleared(old(View()), path[..k], path[k]);
        assert path[..k + 1] == path[..k] + [path[k]];
      }
      assert path[..|path|] == path;
    }

    /** Recorded addresses of the outputs that died since the current node ran. */
    method DataPtrsDeadSinceInvocation() returns (ptrs: seq<Addr>)
      requires Sound(View()) && AtGraphNode(View())
      ensures (set k | 0 <= k < |ptrs| :: ptrs[k]) == DeadAddresses(View())
    {
      TablesComparable(View());
      ChangedAreTracked(View());
      hide Sound;
      hide LivenessOf;
      hide Comparable;
      var path := CurPath(View());
      var changed := GetDifferentIndices(recs[current.value].after, LivenessOf(heap, slots, path));
      assert changed == ChangedIndices(View());
      hide ChangedIndices;
      ptrs := RecordedPtrs(path, changed);
    }

    method RecordedPtrs(path: seq<GraphId>, indices: seq<PathIndex>) returns (ptrs: seq<Addr>)
      requires forall k :: 0 <= k < |indices| ==> TrackedAt(recs, path, indices[k].depth, indices[k].output)
      ensures |ptrs| == |indices|
      ensures forall k :: 0 <= k < |indices| ==> ptrs[k] == PtrAt(recs, path, indices[k].depth, indices[k].output)
    {
      ptrs := [];
      for k := 0 to |indices|
        invariant |ptrs| == k
        invariant forall j :: 0 <= j < k ==> ptrs[j] == PtrAt(recs, path, indices[j].depth, indices[j].output)
      {
        ptrs := ptrs + [PtrAt(recs, path, indices[k].depth, indices[k].output)];
      }
    }

    /** Delete each address of a list once. All must be allocated. */
    method DeleteEach(ptrs: seq<Addr>)
      requires forall k :: 0 <= k < |ptrs| ==> ptrs[k] in pool
      modifies this`pool
      ensures pool == old(pool) - (set k | 0 <= k < |ptrs| :: ptrs[k])
    {
      ghost var all := set k | 0 <= k < |ptrs| :: ptrs[k];
      var todo := set k | 0 <= k < |ptrs| :: ptrs[k];
      while todo != {}
        invariant todo <= all && all <= old(pool).Keys
        invariant pool == old(pool) - (all - todo)
        decreases todo
      {
        var a :| a in todo;
        RawDelete(a);
        todo := todo - {a};
      }
    }

    /** Make the allocator reflect the replayed path, so that recording may go on behind it. */
    method ApplyCheckpointExecutionStateInAllocator()
      requires Sound(View()) && AtGraphNode(View())
      modifies this`heap, this`caches, this`slots, this`pool
      ensures View() == Checkpoint(old(View()))
      ensures Sound(View()) && Ready(View())
    {
      CheckpointReady(View());
      PathHasTables(View());
      ClearedSound(View(), CurPath(View()));
      hide Sound;
      hide Ready;
      RemovePathCachedTensors();
      hide RemoveCached;
      RestoreAllocator();
    }

    method RestoreAllocator()
      requires Sound(View()) && AtGraphNode(View())
      modifies this`pool
      ensures View() == old(View()).(pool := RestoredPool(recs[current.value].checkpoint, PathLiveWeakrefs(old(View()))) - DeadAddresses(old(View())))
    {
      hide Sound;
      hide PathLiveWeakrefs;
      hide DeadAddresses;
      hide LiveAddr;
      ghost var s := View();
      var live := LiveWeakrefs();
      var ptrs := DataPtrsDeadSinceInvocation();
      forall k | 0 <= k < |ptrs|
        ensures ptrs[k] in recs[current.value].checkpoint
      {
        assert ptrs[k] in DeadAddresses(s);
        DeletesOnlyDead(s, ptrs[k]);
      }
      pool := RestoredPool(recs[current.value].checkpoint, live);
      DeleteEach(ptrs);
    }

    // ---------------------------------------------------------------- recording

    /** The first live output of the path at an address. */
    method FindLive(h: Heap, path: seq<GraphId>, ptr: Addr) returns (found: Option<PathIndex>)
      ensures found == AliasOfLive(h, slots, path, ptr)
    {
      var indices := ScanPath(path);
      for k := 0 to |indices|
        invariant FirstLive(h, slots, path, indices, 0, ptr) == FirstLive(h, slots, path, indices, k, ptr)
      {
        if LiveAt(h, slots, path, indices[k].depth, indices[k].output) &&
           SlotAt(slots, path, indices[k].depth, indices[k].output).ptr == ptr {
          return Some(indices[k]);
        }
      }
      return None;
    }

    /** An ancestor's output turns out to be aliased: it is not to be cached again. Its slot
        carries no extra-reference check at this point, so removing one changes nothing. */
    method MarkPriorGraphOutputAsAliased(path: seq<GraphId>, p: PathIndex)
      requires InPath(slots, path, p.depth, p.output) && path[p.depth] in unaliased && p.output < |unaliased[path[p.depth]]|
      requires !SlotAt(slots, path, p.depth, p.output).extra
      modifies this`unaliased, this`slots
      ensures slots == old(slots)
      ensures unaliased == old(unaliased)[path[p.depth] := old(unaliased)[path[p.depth]][p.output := false]]
    {
      var node := path[p.depth];
      unaliased := unaliased[node := unaliased[node][p.output := false]];
      var row := slots[node];
      slots := slots[node := row[p.output := Some(row[p.output].value.(extra := false))]];
      assert row[p.output := Some(row[p.output].value.(extra := false))] == row;
    }

    /** Classify the outputs of a recording and note which of them may be cached. */
    method ClassifyOutputs(path: seq<GraphId>, h: Heap, run: ModelRun) returns (outs: seq<Output>, flags: seq<bool>)
      requires PathPlain(slots, path) && FlagsCover(path, slots, unaliased)
      modifies this`unaliased, this`slots
      ensures slots == old(slots)
      ensures outs == Classify(h, slots, path, run, |run.outs|)
      ensures flags == OwnFlags(outs)
      ensures unaliased == MarkAliased(old(unaliased), path, outs)
    {
      outs, flags := [], [];
      var newIndex: map<Addr, nat> := map[];
      NothingMarked(unaliased, path);
      hide MarkAliased;
      hide OwnFlags;
      hide AliasOfLive;
      for i := 0 to |run.outs|
        modifies this`unaliased, this`slots
        invariant slots == old(slots)
        invariant outs == Classify(h, slots, path, run, i)
        invariant IndexesNew(newIndex, outs)
        invariant BackwardOnly(outs) && flags == OwnFlags(outs)
        invariant unaliased == MarkAliased(old(unaliased), path, outs)
      {
        var o := run.outs[i];
        var output := NonTensor;
        if o.RawTensor? && IsStatic(o.ptr, run.persistent) {
          output := StaticTensor;
        } else if o.RawTensor? {
          assert o.ptr in newIndex <==> FirstNew(outs, |outs|, o.ptr).Some?;
          var prior := FindLive(h, path, o.ptr);
          AliasOfLiveSpec(h, slots, path, o.ptr);
          if prior.Some? {
            MarkedLengths(old(unaliased), path, outs);
            MarkPriorGraphOutputAsAliased(path, prior.value);
            output := Tracked(o.ptr, PriorOutput(prior.value));
          } else if o.ptr in newIndex {
            FirstNewSpec(outs, |outs|, o.ptr);
            output := Tracked(o.ptr, NewOutput(newIndex[o.ptr]));
            flags := flags[newIndex[o.ptr] := false];
          } else {
            output := Tracked(o.ptr, Unaliased);
          }
        }
        assert output == ClassifyOne(h, slots, path, run.persistent, outs, o);
        ghost var indexBefore := newIndex;
        if output.Tracked? && output.alias.Unaliased? {
          newIndex := newIndex[o.ptr := i];
          flags := flags + [true];
        } else {
          flags := flags + [false];
        }
        IndexesNext(indexBefore, outs, output);
        FlagsExtended(outs, output);
        MarkedMore(old(unaliased), path, outs, output);
        outs := outs + [output];
      }
    }

    /** The indices of the true entries of a table. */
    method LiveIndices(bits: Liveness) returns (indices: seq<PathIndex>)
      ensures indices == TrueIndices(bits, |bits|)
    {
      indices := [];
      for d := 0 to |bits|
        invariant indices == TrueIndices(bits, d)
      {
        for i := 0 to |bits[d]|
          invariant indices == TrueIndices(bits, d) + RowIndices(bits[d], d, i)
        {
          if bits[d][i] {
            indices := indices + [PathIndex(d, i)];
          }
        }
      }
    }

    method FindManaged(path: seq<GraphId>, inputs: seq<Input>) returns (idxs: seq<nat>)
      ensures idxs == ManagedIdxs(slots, path, inputs, |inputs|)
    {
      idxs := [];
      for i := 0 to |inputs|
        invariant idxs == ManagedIdxs(slots, path, inputs, i)
      {
        if IsRecordedTensor(slots, path, inputs[i]) {
          idxs := idxs + [i];
        }
      }
    }

    method WithoutRepeats(a: seq<nat>) returns (r: seq<nat>)
      ensures r == Distinct(a, |a|)
    {
      r := [];
      for i := 0 to |a|
        invariant r == Distinct(a, i)
      {
        if a[i] !in r {
          r := r + [a[i]];
        }
      }
    }

    /** The inputs that are outputs of the path, and with the static ones, each once. */
    method InputIndices(fn: FunctionId, inputs: seq<Input>) returns (managed: seq<nat>, idxs: seq<nat>)
      ensures managed == ManagedIdxs(View().slots, CurPath(View()), inputs, |inputs|)
      ensures var all := InfoOf(cfg, fn).statics + managed; idxs == Distinct(all, |all|)
    {
      hide ManagedIdxs;
      hide Distinct;
      managed := FindManaged(CurPath(View()), inputs);
      idxs := WithoutRepeats(InfoOf(cfg, fn).statics + managed);
    }

    /** Which outputs of the path are live now, and which died since the current node ran. */
    method LivenessBefore() returns (before: Liveness, deadBefore: seq<PathIndex>)
      requires CanRecord(View())
      ensures before == RecordBefore(View()) && deadBefore == RecordDeadBefore(View())
    {
      hide CanRecord;
      BeforeComparable(View());
      RecordsBelowGraphNode(View());
      hide LivenessOf;
      hide Comparable;
      hide DifferentIndices;
      before, deadBefore := [], [];
      if current.Some? {
        before := LivenessOf(heap, slots, CurPath(View()) + [nextGraph]);
        deadBefore := GetDifferentIndices(recs[current.value].after, before);
      }
    }

    /** Classify the outputs of the run against the current path. */
    method ClassifyRun(run: ModelRun) returns (outs: seq<Output>, flags: seq<bool>)
      requires CanRecord(View())
      modifies this`unaliased, this`slots
      ensures outs == RecordedOuts(old(View()), run) && flags == OwnFlags(outs)
      ensures View() == old(View()).(unaliased := MarkAliased(old(View()).unaliased, CurPath(old(View())), outs))
    {
      hide CanRecord;
      RecordingPathFlags(View());
      hide Classify;
      hide MarkAliased;
      hide OwnFlags;
      hide PathPlain;
      hide FlagsCover;
      hide HeapAfter;
      outs, flags := ClassifyOutputs(CurPath(View()), HeapAfter(View(), run), run);
    }

    /** Run the function once in the pool while recording it, and write down what was seen:
        the record, which outputs may be cached, the weak references, the references and the
        allocator as the run left them. */
    method RunRecording(fn: FunctionId, inputs: seq<Input>, run: ModelRun)
        returns (r: GraphRecord, flags: seq<bool>, row: Row, h: Heap, blocks: Pool)
      requires CanRecord(View()) && RecordingRun(View(), run)
      modifies this`slots, this`unaliased
      ensures r == NewRecord(old(View()), fn, InfoOf(cfg, fn).statics, inputs, run)
      ensures r.outs == RecordedOuts(old(View()), run) && flags == OwnFlags(r.outs)
      ensures View() == old(View()).(unaliased := MarkAliased(old(View()).unaliased, CurPath(old(View())), r.outs))
      ensures View().slots[old(View()).nextGraph := row] == RecordedSlots(old(View()), run)
      ensures h == HeapAfter(old(View()), run) && blocks == RecordedPool(old(View()), run)
    {
      hide CanRecord;
      hide RecordingRun;
      RecordedComparable(View(), run);
      hide RecordBefore;
      hide RecordDeadBefore;
      hide InfoOf;
      hide LivenessOf;
      hide FreeDead;
      hide Allocate;
      hide Classify;
      hide MarkAliased;
      hide OwnFlags;
      hide RecordedOuts;
      hide Comparable;
      hide DifferentIndices;
      hide TrueIndices;
      hide ManagedIdxs;
      hide Distinct;
      hide StaticPtrs;
      hide RowAt;
      var path := CurPath(View());
      var longer := path + [nextGraph];
      var managed, idxs := InputIndices(fn, inputs);
      var before, deadBefore := LivenessBefore();
      // the function runs: references change, blocks are freed
      h := HeapAfter(View(), run);
      blocks := FreeDead(pool, h);
      var deadAfter := GetDifferentIndices(before, LivenessOf(h, slots, longer));
      var outs;
      outs, flags := ClassifyRun(run);
      row := OwnRow(outs, run.outs);
      var after := LivenessOf(h, slots[nextGraph := row], longer);
      var liveAfter := LiveIndices(after);
      blocks := Allocate(blocks, outs, run.outs, |run.outs|);
      r := GraphRecord(fn, longer, outs, before, after, deadBefore, deadAfter, liveAfter,
                       blocks.Keys, run.scratch, managed, idxs, StaticPtrs(inputs, idxs));
    }

    method AddTables(id: GraphId, r: GraphRecord, flags: seq<bool>, row: Row)
      modifies this`recs, this`slots, this`unaliased, this`caches
      ensures var s := old(View());
              View() == s.(recs := s.recs[id := r], slots := s.slots[id := row], unaliased := s.unaliased[id := flags],
                           caches := s.caches[id := []])
    {
      hide View;
      AddRecord(id, r, row);
      AddFlags(id, flags);
    }

    method AddRecord(id: GraphId, r: GraphRecord, row: Row)
      modifies this`recs, this`slots
      ensures var s := old(View()); View() == s.(recs := s.recs[id := r], slots := s.slots[id := row])
    {
      recs, slots := recs[id := r], slots[id := row];
    }

    method AddFlags(id: GraphId, flags: seq<bool>)
      modifies this`unaliased, this`caches
      ensures var s := old(View()); View() == s.(unaliased := s.unaliased[id := flags], caches := s.caches[id := []])
    {
      unaliased, caches := unaliased[id := flags], caches[id := []];
    }

    method AddChild(site: Site, id: GraphId)
      modifies this`children, this`nextGraph
      ensures var s := old(View());
              View() == s.(children := s.children[site := ChildrenAt(s.children, site) + [id]], nextGraph := id + 1)
    {
      children, nextGraph := children[site := ChildrenAt(children, site) + [id]], id + 1;
    }

    /** Enter a recorded node under its id, as a child of the current one. */
    method AddNode(r: GraphRecord, flags: seq<bool>, row: Row)
      modifies this`recs, this`slots, this`unaliased, this`caches, this`children, this`nextGraph
      ensures var s, id, site := old(View()), old(View()).nextGraph, Site(old(View()).current, r.fn);
              View() == s.(recs := s.recs[id := r], slots := s.slots[id := row], unaliased := s.unaliased[id := flags],
                           caches := s.caches[id := []], children := s.children[site := ChildrenAt(s.children, site) + [id]],
                           nextGraph := id + 1)
    {
      var id, site := nextGraph, Site(current, r.fn);
      assert id == View().nextGraph && site == Site(View().current, r.fn);
      hide View;
      hide ChildrenAt;
      AddTables(id, r, flags, row);
      AddChild(site, id);
    }

    method SetCurrent(id: GraphId, how: ExecutionState)
      modifies this`current, this`pathState, this`currentGen
      ensures View() == old(View()).(current := Some(id), pathState := how, currentGen := CurrGeneration(old(View())))
    {
      hide CurrGeneration;
      currentGen := CurrGeneration(View());
      current, pathState := Some(id), how;
    }

    method SetRuntime(h: Heap, blocks: Pool, n: StorageId)
      modifies this`heap, this`pool, this`nextStorage
      ensures View() == old(View()).(heap := h, pool := blocks, nextStorage := n)
    {
      heap, pool, nextStorage := h, blocks, n;
    }

    /** The node is now the last one run, with the references and blocks its run left. */
    method MakeCurrent(id: GraphId, how: ExecutionState, h: Heap, blocks: Pool, n: StorageId)
      modifies this`current, this`pathState, this`currentGen, this`heap, this`pool, this`nextStorage
      ensures View() == old(View()).(current := Some(id), pathState := how, currentGen := CurrGeneration(old(View())),
                                     heap := h, pool := blocks, nextStorage := n)
    {
      hide View;
      hide CurrGeneration;
      SetCurrent(id, how);
      SetRuntime(h, blocks, n);
    }

    /** Record the function as a new node below the current one, and make it current. */
    method RecordFunction(fn: FunctionId, inputs: seq<Input>, run: ModelRun)
      requires CanRecord(View()) && RecordingRun(View(), run)
      modifies this
      ensures View() == Record(old(View()), fn, InfoOf(cfg, fn).statics, inputs, run)
    {
      hide CanRecord;
      hide RecordingRun;
      hide Record;
      hide NewRecord;
      hide RecordedSlots;
      hide RecordedPool;
      hide RecordedOuts;
      hide MarkAliased;
      hide OwnFlags;
      hide HeapAfter;
      hide CurPath;
      hide InfoOf;
      hide ChildrenAt;
      hide CurrGeneration;
      ghost var s := View();
      var id := nextGraph;
      assert id == s.nextGraph;
      hide View;
      RecordsBelowGraphNode(s);
      assert s.current.Some? ==> AtGraphNode(s);
      NewRecordFn(s, fn, InfoOf(cfg, fn).statics, inputs, run);
      var r, flags, row, h, blocks := RunRecording(fn, inputs, run);
      AddNode(r, flags, row);
      SameGeneration(s, View());
      MakeCurrent(id, Recording, h, blocks, run.nextStorage);
      RecordComposed(s, fn, InfoOf(cfg, fn).statics, inputs, run, row);
    }

    // ---------------------------------------------------------------- warming up

    /** The slots of a warmup node: its outputs that are not storages from outside the path. */
    method TrackOutputs(inputs: seq<Input>, run: ModelRun) returns (row: Row)
      ensures row == WarmupRow(View(), inputs, run)
    {
      hide LiveAmong;
      hide AllIndices;
      hide OutsideStorages;
      hide TrackedRow;
      var path := CurPath(View()) + [nextWarmup];
      var indices := ScanPath(path);
      var live := CollectLive(path, indices);
      row := TrackedRow(run.outs, OutsideStorages(live, inputs, run.constants));
    }

    /** Enter a warmup node under its id, behind the current one. */
    method AddWarmupNode(fn: FunctionId, row: Row)
      modifies this`warm, this`slots, this`warmedUp, this`nextWarmup
      ensures var s, id := old(View()), old(View()).nextWarmup;
              View() == s.(warm := s.warm[id := WarmupRecord(fn, CurPath(s) + [id])], slots := s.slots[id := row],
                           warmedUp := s.warmedUp + {fn}, nextWarmup := id - 1)
    {
      var id, path := nextWarmup, CurPath(View()) + [nextWarmup];
      assert id == View().nextWarmup;
      hide View;
      hide CurPath;
      AddWarmupRecord(id, WarmupRecord(fn, path), row);
      NoteWarmup(id, fn);
    }

    method AddWarmupRecord(id: GraphId, r: WarmupRecord, row: Row)
      modifies this`warm, this`slots
      ensures var s := old(View()); View() == s.(warm := s.warm[id := r], slots := s.slots[id := row])
    {
      warm, slots := warm[id := r], slots[id := row];
    }

    method NoteWarmup(id: GraphId, fn: FunctionId)
      modifies this`warmedUp, this`nextWarmup
      ensures var s := old(View()); View() == s.(warmedUp := s.warmedUp + {fn}, nextWarmup := id - 1)
    {
      warmedUp, nextWarmup := warmedUp + {fn}, id - 1;
    }

    /** Run the function eagerly in the pool behind the current path. */
    method RunEager(fn: FunctionId, inputs: seq<Input>, run: ModelRun)
      modifies this
      ensures View() == WarmUp(old(View()), fn, inputs, run)
    {
      hide WarmupRow;
      hide AllocateRow;
      hide FreeDead;
      hide CurPath;
      ghost var s := View();
      var id := nextWarmup;
      var row := TrackOutputs(inputs, run);
      var h := HeapAfter(View(), run);
      var blocks := AllocateRow(FreeDead(pool, h), row, nextStorage, |row|);
      assert s.pool == pool && s.nextStorage == nextStorage && s.nextWarmup == id;
      hide HeapAfter;
      hide View;
      AddWarmupNode(fn, row);
      MakeCurrent(id, WarmingUp, h, blocks, run.nextStorage);
    }

    // ---------------------------------------------------------------- replaying

    /** The tensors at the given positions are where they were when recorded. */
    method PtrsMatch(inputs: seq<Input>, ptrs: seq<Option<Addr>>, idxs: seq<nat>) returns (equal: bool)
      ensures equal == PtrsEqual(inputs, ptrs, idxs)
    {
      for k := 0 to |idxs|
        invariant forall j :: 0 <= j < k ==>
                    idxs[j] < |inputs| && idxs[j] < |ptrs| && inputs[idxs[j]].Tensor? && ptrs[idxs[j]] == Some(inputs[idxs[j]].data)
      {
        var i := idxs[k];
        if !(i < |inputs| && i < |ptrs| && inputs[i].Tensor? && ptrs[i] == Some(inputs[i].data)) {
          return false;
        }
      }
      return true;
    }

    /** May this node be replayed now? Unless it comes to the last test, the list is untouched;
        for the last test the managed inputs are taken out of it. */
    method CheckNode(id: GraphId, inputs: array<Input>, rest: Heap) returns (status: CheckStatus)
      requires id in recs
      modifies inputs
      ensures status == CheckInvariants(RerecordsOnMovedStatics(cfg), View(), recs[id], rest, old(inputs[..]))
      ensures status !in {Success, Raised} ==> inputs[..] == old(inputs[..])
      ensures status in {Success, Raised} ==> inputs[..] == ClearAt(old(inputs[..]), recs[id].managed)
    {
      hide AllIndexedDead;
      hide PtrsEqual;
      var r := recs[id];
      ManagedInRange(inputs[..], r.staticPtrs, r.managed);
      var equal := PtrsMatch(inputs[..], r.staticPtrs, r.managed);
      if !equal {
        return ManagedIdxMismatch;
      }
      var dead := CheckLiveness(heap, r.path, r.deadBefore);
      if !dead {
        return DeadIndicesMismatch;
      }
      if RerecordsOnMovedStatics(cfg) {
        equal := PtrsMatch(inputs[..], r.staticPtrs, r.staticIdxs);
        if !equal {
          return StaticIdxMismatch;
        }
      }
      ClearInputs(inputs, r.managed);
      dead := CheckLiveness(HeapWith(rest, inputs[..]), r.path, r.deadAfter);
      status := if dead then Success else Raised;
    }

    static method ClearInputs(inputs: array<Input>, idxs: seq<nat>)
      requires forall k :: 0 <= k < |idxs| ==> idxs[k] < inputs.Length
      modifies inputs
      ensures inputs[..] == ClearAt(old(inputs[..]), idxs)
    {
      for k := 0 to |idxs|
        invariant forall i :: 0 <= i < inputs.Length ==> inputs[i] == (if i in idxs[..k] then Cleared else old(inputs[i]))
      {
        inputs[idxs[k]] := Cleared;
        assert idxs[..k + 1] == idxs[..k] + [idxs[k]];
      }
      assert idxs[..|idxs|] == idxs;
    }

    /** Fill an empty cache: a new storage and a checked slot for each flagged output. */
    method InitializeCachedTensors(row: Row, flags: seq<bool>, base: StorageId) returns (checked: Row, cache: seq<Option<StorageId>>)
      requires |flags| == |row| && forall i :: 0 <= i < |row| && flags[i] ==> row[i].Some?
      ensures cache == InitialCache(flags, base)
      ensures |checked| == |row|
      ensures forall i :: 0 <= i < |row| ==>
                checked[i] == if flags[i] then Some(WeakRef(base + i, row[i].value.ptr, true)) else row[i]
    {
      checked, cache := row, [];
      for i := 0 to |flags|
        invariant |cache| == i && |checked| == |row|
        invariant forall j :: 0 <= j < i ==> cache[j] == if flags[j] then Some(base + j) else None
        invariant forall j :: 0 <= j < |row| ==>
                    checked[j] == if j < i && flags[j] then Some(WeakRef(base + j, row[j].value.ptr, true)) else row[j]
      {
        if flags[i] {
          checked := checked[i := Some(WeakRef(base + i, row[i].value.ptr, true))];
          cache := cache + [Some(base + i)];
        } else {
          cache := cache + [None];
        }
      }
    }

    /** The storage that output `i` is rebuilt on: a new one, or one it shares. */
    method RebuildStorage(ghost b: Rebuild, r: GraphRecord, row: Row, base: StorageId, i: nat) returns (x: StorageId)
      requires r == b.r && slots == b.slots && base == b.base && i < |b.row| == |r.outs| && row == HalfRow(b, i)
      requires r.outs[i].Tracked?
      requires r.outs[i].alias.NewOutput? ==> r.outs[i].alias.position < i && row[r.outs[i].alias.position].Some?
      requires r.outs[i].alias.PriorOutput? ==> InPath(slots, r.path, r.outs[i].alias.index.depth, r.outs[i].alias.index.output)
      ensures x == RebuiltOn(b, i)
    {
      hide HalfRow;
      x := base + i;
      match r.outs[i].alias {
        case Unaliased =>
        case PriorOutput(p) => x := SlotAt(slots, r.path, p.depth, p.output).storage;
        case NewOutput(j) => x := row[j].value.storage;
      }
    }

    /** Rebuild the outputs of a node one after the other. It stops at an output whose
        aliased storage of an earlier node cannot be reached any more. */
    method ReconstructOutputs(id: GraphId, h: Heap) returns (ok: bool, row: Row, cache: seq<Option<StorageId>>)
      requires Sound(View()) && id in View().recs
      ensures Replayable(View(), id)
      ensures ok == AliasedPriorsLive(h, slots, recs[id])
      ensures cache == if caches[id] != [] then caches[id] else InitialCache(unaliased[id], nextStorage)
      ensures row == HalfRebuiltRow(recs[id], slots, slots[id], unaliased[id], caches[id] != [], nextStorage, FirstGone(h, slots, recs[id], 0))
      ensures ok ==> row == RebuiltRow(recs[id], slots, slots[id], unaliased[id], caches[id] != [], nextStorage)
    {
      hide Sound;
      hide CanRebuild;
      hide InitialCache;
      hide AliasedPriorsLive;
      hide FirstGone;
      NodeIsRebuildable(View(), id);
      ghost var b := RebuildOf(View(), id);
      FirstGoneOrLive(h, slots, recs[id]);
      WholeRebuilt(b);
      row, cache := FillCache(id);
      ok, row := RebuildRow(b, h, recs[id], row, unaliased[id], nextStorage);
    }

    /** The cache and the slots of the cached outputs, made now if there were none. */
    method FillCache(id: GraphId) returns (row: Row, cache: seq<Option<StorageId>>)
      requires Replayable(View(), id) && CanRebuild(RebuildOf(View(), id))
      ensures |RebuildOf(View(), id).row| == |RebuildOf(View(), id).r.outs| && row == HalfRow(RebuildOf(View(), id), 0)
      ensures cache == if caches[id] != [] then caches[id] else InitialCache(unaliased[id], nextStorage)
    {
      hide HalfRow;
      hide InitialCache;
      ghost var b := RebuildOf(View(), id);
      FlaggedHaveSlots(b);
      row, cache := slots[id], caches[id];
      if cache == [] {
        row, cache := InitializeCachedTensors(row, unaliased[id], nextStorage);
      }
      HalfStart(b, row);
      hide CanRebuild;
    }

    /** The loop of the rebuild. */
    method RebuildRow(ghost b: Rebuild, h: Heap, r: GraphRecord, start: Row, flags: seq<bool>, base: StorageId) returns (ok: bool, row: Row)
      requires CanRebuild(b) && r == b.r && slots == b.slots && base == b.base && flags == b.flags && start == HalfRow(b, 0)
      ensures ok == (FirstGone(h, slots, r, 0) == |r.outs|)
      ensures row == HalfRow(b, FirstGone(h, slots, r, 0))
    {
      CanRebuildLengths(b);
      hide CanRebuild;
      hide HalfRow;
      hide RebuiltOn;
      row := start;
      for i := 0 to |r.outs|
        invariant row == HalfRow(b, i)
        invariant FirstGone(h, slots, r, 0) == FirstGone(h, slots, r, i)
      {
        HalfNext(b, i);
        if r.outs[i].Tracked? && !flags[i] {
          if r.outs[i].alias.PriorOutput? && !LiveAt(h, slots, r.path, r.outs[i].alias.index.depth, r.outs[i].alias.index.output) {
            return false, row;
          }
          var x := RebuildStorage(b, r, row, base, i);
          row := row[i := Some(row[i].value.(storage := x))];
        }
      }
      ok := true;
    }

    method SetOutputs(id: GraphId, row: Row, cache: seq<Option<StorageId>>)
      modifies this`slots, this`caches
      ensures var s := old(View()); View() == s.(slots := s.slots[id := row], caches := s.caches[id := cache])
    {
      slots, caches := slots[id := row], caches[id := cache];
    }

    /** The rebuilt outputs are handed out and the node becomes current. */
    method HandOut(id: GraphId, rest: Heap, row: Row, cache: seq<Option<StorageId>>)
      requires Replayable(View(), id)
      requires row == RebuiltRow(recs[id], slots, slots[id], unaliased[id], caches[id] != [], nextStorage)
      requires cache == if caches[id] != [] then caches[id] else InitialCache(unaliased[id], nextStorage)
      modifies this
      ensures Replayable(old(View()), id) && View() == Replay(old(View()), id, rest)
    {
      hide RebuiltRow;
      hide InitialCache;
      hide RowStorages;
      hide CachePlaces;
      hide CurrGeneration;
      ghost var s := View();
      var r, flags := recs[id], unaliased[id];
      var h := Heap(rest.tensors + RowStorages(row, flags, true), rest.views + RowStorages(row, flags, false),
                    heap.cached + CachePlaces(id, if caches[id] != [] then [] else flags, nextStorage));
      var blocks, n := pool, nextStorage + |r.outs|;
      ghost var t := Replay(s, id, rest);
      assert t == s.(slots := s.slots[id := row], caches := s.caches[id := cache], current := Some(id), pathState := Executing,
                     currentGen := CurrGeneration(s), heap := h, nextStorage := n);
      assert blocks == s.pool;
      hide Replay;
      hide View;
      SetOutputs(id, row, cache);
      assert CurrGeneration(View()) == CurrGeneration(s) by { SameGeneration(s, View()); }
      MakeCurrent(id, Executing, h, blocks, n);
    }

    /** Replay an accepted node: it becomes current and its outputs are handed out. It is current,
        too, when the replay raises. */
    method ExecuteNode(id: GraphId, c: Call) returns (o: Outcome)
      requires Sound(View()) && id in View().recs
      modifies this
      ensures o == ReplayResult(cfg, old(View()), id, c, [old(View())]).outcome
      ensures Replayable(old(View()), id) && View() == AfterReplay(cfg, old(View()), id, c)
      ensures o.Replayed? ==> View() == Replay(old(View()), id, c.rest)
    {
      hide Sound;
      hide StaticsStable;
      hide AliasedPriorsLive;
      hide RebuildHeap;
      hide ClearAt;
      hide Replay;
      hide StoppedAtInputs;
      hide StoppedAtOutputs;
      hide CanRebuild;
      NodeIsRebuildable(View(), id);
      ReplayCases(cfg, View(), id, c);
      hide AfterReplay;
      hide ReplayResult;
      hide Replayable;
      var r := recs[id];
      if !RerecordsOnMovedStatics(cfg) && !StaticsStable(r, ClearAt(c.inputs, r.managed)) {
        StopAtInputs(id, c);
        return Failed(StaticInputMoved);
      }
      var ok := RunGraph(id, c);
      o := if ok then Replayed(id) else Failed(AliasedOutputGone);
    }

    /** Replay the node's graph and rebuild its outputs. */
    method RunGraph(id: GraphId, c: Call) returns (ok: bool)
      requires Sound(View()) && id in View().recs
      modifies this
      ensures Replayable(old(View()), id)
      ensures var s := old(View()); ok == AliasedPriorsLive(RebuildHeap(s.recs[id], c.rest, c.inputs), s.slots, s.recs[id])
      ensures View() == if ok then Replay(old(View()), id, c.rest) else StoppedAtOutputs(old(View()), id, c.rest, c.inputs)
    {
      hide Sound;
      hide RebuiltRow;
      hide HalfRebuiltRow;
      hide InitialCache;
      hide AliasedPriorsLive;
      hide RebuildHeap;
      hide Replay;
      hide StoppedAtOutputs;
      hide FirstGone;
      var row, cache;
      ok, row, cache := ReconstructOutputs(id, RebuildHeap(recs[id], c.rest, c.inputs));
      if ok {
        HandOut(id, c.rest, row, cache);
      } else {
        StopAtOutputs(id, c, row, cache);
      }
    }

    /** The node was entered and its static inputs had moved. */
    method StopAtInputs(id: GraphId, c: Call)
      requires id in View().recs
      modifies this
      ensures id in old(View()).recs && View() == StoppedAtInputs(old(View()), id, c.rest, c.inputs)
    {
      hide CurrGeneration;
      hide ClearAt;
      hide HeapWith;
      ghost var s := View();
      var h, blocks, n := HeapWith(c.rest, ClearAt(c.inputs, recs[id].managed)), pool, nextStorage;
      assert h == HeapWith(c.rest, ClearAt(c.inputs, s.recs[id].managed)) && blocks == s.pool && n == s.nextStorage;
      hide View;
      MakeCurrent(id, Executing, h, blocks, n);
    }

    /** The node was entered and replayed, and an output could not be rebuilt. */
    method StopAtOutputs(id: GraphId, c: Call, row: Row, cache: seq<Option<StorageId>>)
      requires Replayable(View(), id)
      requires row == HalfRebuiltRow(recs[id], slots, slots[id], unaliased[id], caches[id] != [], nextStorage,
                                     FirstGone(RebuildHeap(recs[id], c.rest, c.inputs), slots, recs[id], 0))
      requires cache == if caches[id] != [] then caches[id] else InitialCache(unaliased[id], nextStorage)
      modifies this
      ensures Replayable(old(View()), id) && View() == StoppedAtOutputs(old(View()), id, c.rest, c.inputs)
    {
      hide HalfRebuiltRow;
      hide FirstGone;
      hide RebuildHeap;
      hide InitialCache;
      hide CachePlaces;
      hide CurrGeneration;
      ghost var s := View();
      var r := recs[id];
      var h := RebuildHeap(r, c.rest, c.inputs)
               .(cached := heap.cached + CachePlaces(id, if caches[id] != [] then [] else unaliased[id], nextStorage));
      var blocks, n := pool, nextStorage + |r.outs|;
      ghost var t := StoppedAtOutputs(s, id, c.rest, c.inputs);
      assert t == s.(slots := s.slots[id := row], caches := s.caches[id := cache], current := Some(id), pathState := Executing,
                     currentGen := CurrGeneration(s), heap := h, nextStorage := n);
      assert blocks == s.pool;
      hide StoppedAtOutputs;
      hide View;
      SetOutputs(id, row, cache);
      assert CurrGeneration(View()) == CurrGeneration(s) by { SameGeneration(s, View()); }
      MakeCurrent(id, Executing, h, blocks, n);
    }

    // ---------------------------------------------------------------- a call

    /** Some mutated input is neither static nor an output the current node knows. */
    method CheckForMutation(fn: FunctionId, inputs: seq<Input>) returns (foreign: bool)
      ensures foreign == MutatesForeignInput(cfg, View(), fn, inputs)
    {
      hide RecognisedByCurrent;
      var info := InfoOf(cfg, fn);
      for k := 0 to |info.mutated|
        invariant forall j :: 0 <= j < k ==>
                    info.mutated[j] in info.statics ||
                    (info.mutated[j] < |inputs| && RecognisedByCurrent(View(), inputs[info.mutated[j]]))
      {
        var i := info.mutated[k];
        if !(i in info.statics || (i < |inputs| && RecognisedByCurrent(View(), inputs[i]))) {
          return true;
        }
      }
      return false;
    }

    method UpdateMutationHint(fn: FunctionId, inputs: seq<Input>)
      modifies this`hints
      ensures View() == UpdateHint(cfg, old(View()), fn, inputs)
    {
      hide MutatesForeignInput;
      var foreign := CheckForMutation(fn, inputs);
      hints := hints[Site(current, fn) := foreign];
    }

    /** Run the function outside the pool. */
    method RunModel(run: ModelRun)
      modifies this`heap, this`pool, this`nextStorage
      ensures View() == UserStep(old(View()), HeapAfter(old(View()), run), run.nextStorage)
    {
      hide FreeDead;
      var h := HeapAfter(View(), run);
      heap, pool, nextStorage := h, FreeDead(pool, h), run.nextStorage;
    }

    /** Try the children in recording order. Those that do not match leave the list alone. */
    method ProbeChildNodes(kids: seq<GraphId>, c: Call, inputs: array<Input>) returns (p: Probe)
      requires inputs[..] == c.inputs && forall k :: 0 <= k < |kids| ==> kids[k] in View().recs
      modifies inputs
      ensures p == ProbeFrom(cfg, View(), kids, c, 0, false)
      ensures p.NoMatch? ==> inputs[..] == old(inputs[..])
      ensures !p.NoMatch? ==> p.child in View().recs && inputs[..] == ClearAt(old(inputs[..]), View().recs[p.child].managed)
    {
      hide CheckInvariants;
      var unexpected := false;
      for k := 0 to |kids|
        invariant inputs[..] == c.inputs
        invariant ProbeFrom(cfg, View(), kids, c, 0, false) == ProbeFrom(cfg, View(), kids, c, k, unexpected)
      {
        var status := CheckNode(kids[k], inputs, c.rest);
        if status == Success {
          return Accept(kids[k]);
        }
        if status == Raised {
          return Raise(kids[k]);
        }
        if status == StaticIdxMismatch || status == ManagedIdxMismatch {
          unexpected := true;
        }
      }
      return NoMatch(unexpected);
    }

    /** Bring the allocator up to date if the path was replayed. */
    method PrepareAllocator()
      requires Valid(View())
      modifies this`heap, this`caches, this`slots, this`pool
      ensures View() == (if old(View()).pathState == Executing then Checkpoint(old(View())) else old(View()))
      ensures Sound(View()) && Ready(View()) && pathState == old(pathState)
    {
      ReadyToAllocate(View());
      ExecutingAtGraphNode(View());
      hide Sound;
      hide Ready;
      hide Checkpoint;
      if pathState == Executing {
        ApplyCheckpointExecutionStateInAllocator();
      }
    }

    method ChargeSite(here: Site)
      modifies this`rerecords
      ensures View() == Charge(old(View()), here)
    {
      rerecords := rerecords[here := CountAt(rerecords, here) + 1];
    }

    /** Nothing matched: check mutation again, charge the site, then record. */
    method AfterProbing(c: Call, unexpected: bool, ghost trail: seq<State>) returns (o: Outcome)
      requires |trail| > 0 && Valid(View()) && View().pathState in {NoPath, Executing}
      requires RunOk(AfterProbe(cfg, View(), c, unexpected, trail), c)
      modifies this
      ensures o == AfterProbe(cfg, old(View()), c, unexpected, trail).outcome
      ensures EndsIn(AfterProbe(cfg, old(View()), c, unexpected, trail), View())
    {
      hide Valid;
      hide RunOk;
      hide MutatesForeignInput;
      hide ExceedsLimit;
      hide TryEndExecution;
      hide RecordResult;
      hide RecordingRun;
      hide UserStep;
      hide HeapAfter;
      hide FreeDead;
      hide LegalStep;
      hide InfoOf;
      hide UpdateHint;
      hide HintAt;
      hide Charge;
      ghost var s := View();
      var here := Site(current, c.fn);
      assert here == HereFor(s, c.fn);
      var charge: Option<Site> := None;
      hide HereFor;
      hide View;
      var foreign := RecheckMutation(c);
      ghost var s1 := View();
      if foreign {
        RunModel(c.run);
        return RanEagerly;
      }
      if unexpected {
        ChargeSite(here);
        charge := Some(here);
        ChargeStep(s1, here);
        if ExceedsLimit(cfg, View(), here) {
          RunModel(c.run);
          return RanEagerly;
        }
      }
      ghost var s2 := View();
      TryEndExecutionStep(s2);
      TryEndCurrExecution();
      o := RecordBehind(c, charge, trail + [s1, s2, View()]);
    }

    /** Look at mutated inputs again, if there are any. */
    method RecheckMutation(c: Call) returns (foreign: bool)
      requires Valid(View())
      modifies this`hints
      ensures Valid(View()) && View().pathState == old(View()).pathState
      ensures View() == if |InfoOf(cfg, c.fn).mutated| > 0 then UpdateHint(cfg, old(View()), c.fn, c.inputs) else old(View())
      ensures foreign <==> |InfoOf(cfg, c.fn).mutated| > 0 && HintAt(View(), HereFor(old(View()), c.fn))
    {
      hide Valid;
      hide InfoOf;
      hide LegalStep;
      hide MutatesForeignInput;
      foreign := false;
      if |InfoOf(cfg, c.fn).mutated| > 0 {
        ghost var s := View();
        UpdateMutationHint(c.fn, c.inputs);
        BookkeepingStep(s, View());
        foreign := hints[Site(current, c.fn)];
      }
    }

    method RecordBehind(c: Call, charge: Option<Site>, ghost trail: seq<State>) returns (o: Outcome)
      requires |trail| > 0 && Valid(View()) && View().pathState != WarmingUp
      requires RunOk(RecordResult(cfg, View(), c, charge, trail), c)
      modifies this
      ensures o == RecordResult(cfg, old(View()), c, charge, trail).outcome
      ensures EndsIn(RecordResult(cfg, old(View()), c, charge, trail), View())
    {
      hide Sound;
      hide Ready;
      hide PoolOk;
      hide Checkpoint;
      hide RecordingRun;
      hide Record;
      PrepareAllocator();
      o := Recorded(nextGraph, charge);
      RecordFunction(c.fn, c.inputs, c.run);
    }

    method WarmUpBehind(c: Call, ghost trail: seq<State>) returns (o: Outcome)
      requires |trail| > 0 && Valid(View())
      requires RunOk(WarmupResult(View(), c, trail), c)
      modifies this
      ensures o == WarmupResult(old(View()), c, trail).outcome
      ensures EndsIn(WarmupResult(old(View()), c, trail), View())
    {
      hide Sound;
      hide Ready;
      hide PoolOk;
      hide Checkpoint;
      hide WarmupRun;
      hide WarmUp;
      PrepareAllocator();
      o := WarmedUp(nextWarmup);
      RunEager(c.fn, c.inputs, c.run);
    }

    /** The children of a site; asking for them leaves an entry. */
    method ChildNodes(here: Site) returns (kids: seq<GraphId>)
      modifies this`children
      ensures View() == TouchChildren(old(View()), here) && kids == ChildrenAt(old(View()).children, here)
    {
      kids := ChildrenAt(children, here);
      children := children[here := kids];
    }

    /** The test of a child raised: the managed inputs are out of the list. */
    method DropManaged(id: GraphId, c: Call)
      requires id in View().recs
      modifies this`heap, this`pool, this`nextStorage
      ensures id in old(View()).recs && View() == ReleaseInputs(old(View()), id, c)
    {
      hide FreeDead;
      hide ClearAt;
      hide HeapWith;
      var h := HeapWith(c.rest, ClearAt(c.inputs, recs[id].managed));
      heap, pool := h, FreeDead(pool, h);
    }

    /** Replay a child, or start over at the roots, or go on to record. */
    method ReplayOrRecord(c: Call, inputs: array<Input>, ghost trail: seq<State>) returns (o: Outcome)
      requires |trail| > 0 && Valid(View()) && View().pathState in {NoPath, Executing} && CallOk(View(), c) && inputs[..] == c.inputs
      requires RunOk(ProbeChildren(cfg, View(), c, trail), c)
      modifies this, inputs
      ensures o == ProbeChildren(cfg, old(View()), c, trail).outcome
      ensures !FailedInNode(o) ==> EndsIn(ProbeChildren(cfg, old(View()), c, trail), View())
      decreases Rank(View()), 1
    {
      hide Valid;
      hide RunOk;
      hide CallOk;
      hide TryEndExecution;
      hide ProbeFrom;
      hide AfterProbe;
      hide ReplayResult;
      hide Replay;
      hide RunCall;
      hide ProbeChildren;
      hide Replayable;
      hide ClearAt;
      ghost var s := View();
      var here := Site(current, c.fn);
      assert here == HereFor(s, c.fn);
      hide View;
      TouchChildrenStep(s, here);
      TouchKeepsCall(s, here, c);
      AllKidsRecorded(s, here);
      var kids := ChildNodes(here);
      ghost var s1 := View();
      hide ChildrenAt;
      var p := ProbeChildNodes(kids, c, inputs);
      ProbeChildrenCases(cfg, s, c, trail, s1, p);
      match p {
        case Accept(child) =>
          ValidIsSound(s1);
          ReplayResultTrail(cfg, s1, child, c, [s1], trail + [s1]);
          o := ExecuteNode(child, c);
        case Raise(child) =>
          DropManaged(child, c);
          o := Failed(SurvivingInput);
        case NoMatch(unexpected) =>
          o := StartOverOrRecord(c, inputs, unexpected, s, trail);
      }
    }

    /** No child matched. If the function is also a root and the path can be ended, run again
        from there; otherwise go on to record. */
    method StartOverOrRecord(c: Call, inputs: array<Input>, unexpected: bool, ghost s: State, ghost trail: seq<State>) returns (o: Outcome)
      requires |trail| > 0 && Valid(View()) && View().pathState in {NoPath, Executing} && CallOk(View(), c) && inputs[..] == c.inputs
      requires View() == TouchChildren(s, HereFor(s, c.fn))
      requires ProbeFrom(cfg, View(), ChildrenAt(s.children, HereFor(s, c.fn)), c, 0, false) == NoMatch(unexpected)
      requires RunOk(ProbeChildren(cfg, s, c, trail), c)
      modifies this, inputs
      ensures o == ProbeChildren(cfg, s, c, trail).outcome
      ensures !FailedInNode(o) ==> EndsIn(ProbeChildren(cfg, s, c, trail), View())
      decreases Rank(View()), 0
    {
      hide Valid;
      hide RunOk;
      hide CallOk;
      hide TryEndExecution;
      hide ProbeFrom;
      hide AfterProbe;
      hide ReplayResult;
      hide RunCall;
      ghost var s1 := View();
      if current.Some? && Site(None, c.fn) in children {
        TryEndExecutionStep(s1);
        TryEndCurrExecution();
        ghost var s2 := View();
        if current.None? {
          SameHeapCall(s1, s2, c);
          RunOkTrail(ProbeChildren(cfg, s, c, trail), RunCall(cfg, s2, c), c);
          o := Run(c, inputs);
        } else {
          o := AfterProbing(c, unexpected, trail + [s1, s2]);
        }
      } else {
        o := AfterProbing(c, unexpected, trail + [s1]);
      }
    }

    /** End a path that is being recorded or warmed up, if that is allowed now. */
    method SettlePath()
      requires Valid(View())
      modifies this`pool, this`current, this`pathState
      ensures View() == Settle(old(View()))
    {
      hide Valid;
      hide TryEndAllocating;
      if pathState == Recording {
        TryEndCurrRecording();
      } else if pathState == WarmingUp {
        TryEndCurrWarmup();
      }
    }

    method EnsureMutationHint(fn: FunctionId, inputs: seq<Input>)
      modifies this`hints
      ensures View() == EnsureHint(cfg, old(View()), fn, inputs)
      ensures Site(current, fn) in hints
    {
      hide MutatesForeignInput;
      if Site(current, fn) !in hints {
        UpdateMutationHint(fn, inputs);
      }
    }

    /** One call: settle, then run eagerly, warm up, record, or try the children. */
    method RunCurrent(c: Call, inputs: array<Input>) returns (o: Outcome)
      requires Valid(View()) && CallOk(View(), c) && inputs[..] == c.inputs && RunOk(RunBody(cfg, View(), c), c)
      modifies this, inputs
      ensures o == RunBody(cfg, old(View()), c).outcome
      ensures !FailedInNode(o) ==> EndsIn(RunBody(cfg, old(View()), c), View())
      decreases Rank(View()), 2
    {
      hide Valid;
      hide RunOk;
      hide CallOk;
      hide TryEndAllocating;
      hide MutatesForeignInput;
      hide ExceedsLimit;
      hide ProbeChildren;
      hide WarmupResult;
      hide RecordResult;
      hide UserStep;
      hide HeapAfter;
      hide LegalStep;
      hide Settle;
      ghost var s := View();
      SettleStep(s);
      SettlePath();
      ghost var s1 := View();
      EnsureMutationHint(c.fn, c.inputs);
      ghost var s2 := View();
      var here := Site(current, c.fn);
      BookkeepingStep(s1, s2);
      SameHeapCall(s, s2, c);
      ghost var trail := [s, s1, s2];
      if hints[here] || ExceedsLimit(cfg, View(), here) {
        RunModel(c.run);
        return RanEagerly;
      }
      if NeedsWarmup(cfg, View(), c.fn) {
        o := WarmUpBehind(c, trail);
        return;
      }
      NotWarmingUp(s2);
      assert s2.current.Some? ==> AtGraphNode(s2);
      if pathState == Recording {
        o := RecordBehind(c, None, trail);
      } else {
        o := ReplayOrRecord(c, inputs, trail);
      }
    }

    /** One call of a wrapped function through the manager. */
    method Run(c: Call, inputs: array<Input>) returns (o: Outcome)
      requires Valid(View()) && CallOk(View(), c) && inputs[..] == c.inputs && RunOk(RunCall(cfg, View(), c), c)
      modifies this, inputs
      ensures o == RunCall(cfg, old(View()), c).outcome
      ensures !FailedInNode(o) ==> EndsIn(RunCall(cfg, old(View()), c), View()) && Valid(View())
      decreases Rank(View()), 3
    {
      hide Valid;
      hide RunOk;
      hide CallOk;
      hide RunBody;
      ghost var s := View();
      CallIsLegal(cfg, s, c);
      RunOkTrail(RunCall(cfg, s, c), RunBody(cfg, s, c), c);
      RunBodyTrail(cfg, s, c);
      o := RunCurrent(c, inputs);
      if o.Failed? {
        return;
      }
      match InfoOf(cfg, c.fn).mode {
        case Forward => pendingBackward := true;
        case Backward => pendingBackward := false;
        case Inference =>
      }
    }
  }

  lemma ChargeStep(s: State, k: Site)
    requires Valid(s)
    ensures Valid(Charge(s, k)) && Charge(s, k).pathState == s.pathState
  {
    hide Valid;
    hide LegalStep;
    BookkeepingStep(s, Charge(s, k));
  }

  lemma ManagedInRange(inputs: seq<Input>, ptrs: seq<Option<Addr>>, idxs: seq<nat>)
    ensures PtrsEqual(inputs, ptrs, idxs) ==> forall k :: 0 <= k < |idxs| ==> idxs[k] < |inputs|
  {
  }

  /** What a call does once its children were probed, unless none matched. */
  lemma ProbeChildrenCases(cfg: Config, s: State, c: Call, trail: seq<State>, s1: State, p: Probe)
    requires s1 == TouchChildren(s, HereFor(s, c.fn))
    requires p == ProbeFrom(cfg, s1, ChildrenAt(s.children, HereFor(s, c.fn)), c, 0, false)
    ensures p.Accept? && p.child in s1.recs ==>
              ProbeChildren(cfg, s, c, trail) == ReplayResult(cfg, s1, p.child, c, trail + [s1])
    ensures p.Raise? && p.child in s1.recs ==>
              ProbeChildren(cfg, s, c, trail) == CallResult(Failed(SurvivingInput), trail + [s1, ReleaseInputs(s1, p.child, c)], None)
  {
    hide ProbeFrom;
    hide ReplayResult;
    hide AfterProbe;
    hide TryEndExecution;
    hide RunCall;
  }

  /** The allocator reflects a path that is recorded or warmed up, and its node is of that kind. */
  lemma AllocatingNode(s: State)
    requires Valid(s) && s.pathState in {Recording, WarmingUp}
    ensures Sound(s) && Ready(s) && s.current.Some? && (s.pathState == Recording ==> AtGraphNode(s))
  {
  }

  lemma DeallocKeepsNode(s: State)
    ensures AtGraphNode(DeallocPath(s)) <==> AtGraphNode(s)
  {
    hide DeallocPath;
  }

  /** Only a state that warms up has a warmup node for its current one. */
  lemma NotWarmingUp(s: State)
    requires Valid(s) && s.pathState != WarmingUp
    ensures s.current.Some? ==> AtGraphNode(s)
  {
  }

  lemma ExecutingAtGraphNode(s: State)
    requires Valid(s)
    ensures Sound(s) && (s.pathState == Executing ==> AtGraphNode(s))
  {
  }

  lemma ValidIsSound(s: State)
    requires Valid(s)
    ensures Sound(s)
  {
  }

  lemma AllKidsRecorded(s: State, here: Site)
    requires Valid(s) && here.node == s.current
    ensures forall j :: 0 <= j < |ChildrenAt(s.children, here)| ==> ChildrenAt(s.children, here)[j] in s.recs
  {
    forall j | 0 <= j < |ChildrenAt(s.children, here)|
      ensures ChildrenAt(s.children, here)[j] in s.recs
    {
      KidsAreRecorded(s, here, j);
    }
  }

  /** A replay goes the same way whatever came before it. */
  lemma ReplayResultTrail(cfg: Config, s: State, id: GraphId, c: Call, first: seq<State>, second: seq<State>)
    requires id in s.recs
    ensures var q, r := ReplayResult(cfg, s, id, c, first), ReplayResult(cfg, s, id, c, second);
            && q.outcome == r.outcome && (FailedInNode(r.outcome) || r.outcome == Replayed(id))
            && (r.outcome.Replayed? ==> Replayable(s, id) && EndsIn(r, Replay(s, id, c.rest)))
  {
  }

  /** The parts of a recording put together. */
  lemma RecordComposed(s: State, fn: FunctionId, statics: seq<nat>, inputs: seq<Input>, run: ModelRun, row: Row)
    requires s.slots[s.nextGraph := row] == RecordedSlots(s, run)
    ensures var id, site, outs := s.nextGraph, Site(s.current, fn), RecordedOuts(s, run);
            Record(s, fn, statics, inputs, run) ==
            s.(recs := s.recs[id := NewRecord(s, fn, statics, inputs, run)], slots := s.slots[id := row],
               unaliased := MarkAliased(s.unaliased, CurPath(s), outs)[id := OwnFlags(outs)], caches := s.caches[id := []],
               children := s.children[site := ChildrenAt(s.children, site) + [id]],
               current := Some(id), pathState := Recording, currentGen := CurrGeneration(s), nextGraph := id + 1,
               heap := HeapAfter(s, run), pool := RecordedPool(s, run), nextStorage := run.nextStorage)
  {
    hide NewRecord;
    hide RecordedSlots;
    hide RecordedPool;
    hide RecordedOuts;
    hide MarkAliased;
    hide OwnFlags;
    hide HeapAfter;
    hide CurPath;
    hide CurrGeneration;
  }

  lemma NewRecordFn(s: State, fn: FunctionId, statics: seq<nat>, inputs: seq<Input>, run: ModelRun)
    ensures NewRecord(s, fn, statics, inputs, run).fn == fn
  {
  }

  lemma SameGeneration(s: State, t: State)
    requires s.generation == t.generation && s.markStep == t.markStep
    ensures CurrGeneration(s) == CurrGeneration(t)
  {
  }

  lemma AddressesGrow(ws: seq<WeakRef>, k: nat)
    requires k < |ws|
    ensures Addresses(ws[..k + 1]) == Addresses(ws[..k]) + {ws[k].ptr}
  {
    forall a
      ensures a in Addresses(ws[..k + 1]) <==> a in Addresses(ws[..k]) || a == ws[k].ptr
    {
      if a in Addresses(ws[..k]) {
        var j :| 0 <= j < k && ws[..k][j].ptr == a;
        assert ws[..k + 1][j].ptr == a;
      }
      if a in Addresses(ws[..k + 1]) {
        var j :| 0 <= j < k + 1 && ws[..k + 1][j].ptr == a;
        if j < k {
          assert ws[..k][j].ptr == a;
        }
      }
      assert ws[..k + 1][k].ptr == ws[k].ptr;
    }
  }

  /** Each live weak reference is the owner of its block. */
  lemma LiveRefsOwn(s: State)
    requires Sound(s) && Ready(s)
    ensures forall w :: w in PathLiveWeakrefs(s) ==> w.ptr in s.pool && s.pool[w.ptr] == Some(w.storage)
  {
    hide Sound;
    FastLivenessIsExact(s);
    forall w | w in PathLiveWeakrefs(s)
      ensures w.ptr in s.pool && s.pool[w.ptr] == Some(w.storage)
    {
      assert LiveRef(s.heap, s.slots, CurPath(s), w);
    }
  }

  function CacheEntries(cache: seq<Option<StorageId>>, n: nat): set<StorageId>
    requires n <= |cache|
  {
    set i | 0 <= i < n && cache[i].Some? :: cache[i].value
  }

  lemma CacheEntriesGrow(cache: seq<Option<StorageId>>, k: nat)
    requires k < |cache|
    ensures CacheEntries(cache, k + 1) == CacheEntries(cache, k) + (if cache[k].Some? then {cache[k].value} else {})
  {
  }

  lemma OneNodeCleared(s: State, id: GraphId)
    requires id in s.caches && id in s.slots && id in s.unaliased
    ensures RemoveCached(s, [id]) ==
            s.(slots := s.slots[id := ClearedRow(s.slots[id], s.unaliased[id])],
               caches := s.caches[id := []],
               heap := Uncache(s.heap, CacheEntries(s.caches[id], |s.caches[id]|)))
  {
    var t := RemoveCached(s, [id]);
    assert t.slots == s.slots[id := ClearedRow(s.slots[id], s.unaliased[id])];
    assert t.caches == s.caches[id := []];
    assert CachedStorages(s.caches, [id]) == CacheEntries(s.caches[id], |s.caches[id]|) by {
      assert forall jd :: jd in [id] <==> jd == id;
    }
  }

  lemma UncacheNothing(h: Heap)
    ensures Uncache(h, {}) == h
  {
    assert h.cached - {} == h.cached;
  }

  lemma UncacheMore(h: Heap, xs: set<StorageId>, ys: set<StorageId>)
    ensures Uncache(Uncache(h, xs), ys) == Uncache(h, xs + ys)
  {
    assert (h.cached - xs) - ys == h.cached - (xs + ys);
  }

  lemma ClearedKeys(s: State)
    ensures forall nodes :: RemoveCached(s, nodes).slots.Keys == s.slots.Keys &&
                            RemoveCached(s, nodes).caches.Keys == s.caches.Keys &&
                            RemoveCached(s, nodes).unaliased == s.unaliased
  {
  }

  lemma NoNodeCleared(s: State)
    ensures RemoveCached(s, []) == s
  {
    var t := RemoveCached(s, []);
    assert t.slots == s.slots;
    assert t.caches == s.caches;
    assert CachedStorages(s.caches, []) == {};
    assert t.heap.cached == s.heap.cached;
  }

  lemma ClearedTwice(row: Row, flags: seq<bool>)
    ensures ClearedRow(ClearedRow(row, flags), flags) == ClearedRow(row, flags)
  {
  }

  lemma MoreNodesCleared(s: State, nodes: seq<GraphId>, id: GraphId)
    ensures RemoveCached(RemoveCached(s, nodes), [id]) == RemoveCached(s, nodes + [id])
  {
    MoreRowsCleared(s, nodes, id);
    MoreCachesCleared(s, nodes, id);
    ReleasedMore(s, nodes, id);
    var t := RemoveCached(s, nodes);
    var u, v := RemoveCached(t, [id]), RemoveCached(s, nodes + [id]);
    UncacheMore(s.heap, CachedStorages(s.caches, nodes), CachedStorages(t.caches, [id]));
    hide CachedStorages;
    hide Uncache;
    hide ClearedRow;
    assert u == s.(slots := u.slots, caches := u.caches, heap := u.heap);
  }

  lemma MoreRowsCleared(s: State, nodes: seq<GraphId>, id: GraphId)
    ensures RemoveCached(RemoveCached(s, nodes), [id]).slots == RemoveCached(s, nodes + [id]).slots
  {
    hide CachedStorages;
    hide Uncache;
    hide ClearedRow;
    var u, v := RemoveCached(RemoveCached(s, nodes), [id]), RemoveCached(s, nodes + [id]);
    forall jd | jd in s.slots
      ensures u.slots[jd] == v.slots[jd]
    {
      ClearedTwice(s.slots[jd], FlagsOf(s.unaliased, jd));
      assert jd in [id] <==> jd == id;
      assert jd in nodes + [id] <==> jd in nodes || jd == id;
    }
  }

  lemma MoreCachesCleared(s: State, nodes: seq<GraphId>, id: GraphId)
    ensures RemoveCached(RemoveCached(s, nodes), [id]).caches == RemoveCached(s, nodes + [id]).caches
  {
    hide CachedStorages;
    hide Uncache;
    hide ClearedRow;
    var u, v := RemoveCached(RemoveCached(s, nodes), [id]), RemoveCached(s, nodes + [id]);
    forall jd | jd in s.caches
      ensures u.caches[jd] == v.caches[jd]
    {
      assert jd in [id] <==> jd == id;
      assert jd in nodes + [id] <==> jd in nodes || jd == id;
    }
  }

  lemma ReleasedMore(s: State, nodes: seq<GraphId>, id: GraphId)
    ensures CachedStorages(s.caches, nodes + [id]) ==
            CachedStorages(s.caches, nodes) + CachedStorages(RemoveCached(s, nodes).caches, [id])
  {
    var rest := RemoveCached(s, nodes).caches;
    forall x
      ensures x in CachedStorages(s.caches, nodes + [id]) <==>
              x in CachedStorages(s.caches, nodes) || x in CachedStorages(rest, [id])
    {
      if x in CachedStorages(s.caches, nodes + [id]) && x !in CachedStorages(s.caches, nodes) {
        var jd, i :| jd in nodes + [id] && jd in s.caches && 0 <= i < |s.caches[jd]| && s.caches[jd][i].Some? && s.caches[jd][i].value == x;
        assert jd == id && id !in nodes;
        assert rest[id][i] == s.caches[id][i];
      }
      if x in CachedStorages(rest, [id]) {
        var jd, i :| jd in [id] && jd in rest && 0 <= i < |rest[jd]| && rest[jd][i].Some? && rest[jd][i].value == x;
        assert jd == id && id !in nodes && id in nodes + [id];
        assert s.caches[id][i] == rest[id][i];
      }
      if x in CachedStorages(s.caches, nodes) {
        var jd, i :| jd in nodes && jd in s.caches && 0 <= i < |s.caches[jd]| && s.caches[jd][i].Some? && s.caches[jd][i].value == x;
        assert jd in nodes + [id];
      }
    }
  }

  lemma PathHasTables(s: State)
    requires Sound(s) && AtGraphNode(s)
    ensures forall k :: 0 <= k < |CurPath(s)| ==>
              CurPath(s)[k] in s.recs && CurPath(s)[k] in s.caches && CurPath(s)[k] in s.slots && CurPath(s)[k] in s.unaliased
    ensures forall n :: n in CurPath(s) ==> n in s.recs
  {
    assert RecordOk(s.recs, s.current.value);
    forall k | 0 <= k < |CurPath(s)|
      ensures CurPath(s)[k] in s.recs && CurPath(s)[k] in s.caches && CurPath(s)[k] in s.slots && CurPath(s)[k] in s.unaliased
    {
      var node := CurPath(s)[k];
      assert node in s.recs;
    }
  }

  /** Every slot of the path has a flag. */
  ghost predicate FlagsCover(path: seq<GraphId>, slots: Slots, unaliased: map<GraphId, seq<bool>>) {
    forall d: nat, i: nat :: InPath(slots, path, d, i) ==> path[d] in unaliased && i < |unaliased[path[d]]|
  }

  /** `index` maps each address that an output introduced to that output. */
  ghost predicate IndexesNew(index: map<Addr, nat>, outs: seq<Output>) {
    forall a: Addr :: (a in index <==> FirstNew(outs, |outs|, a).Some?) && (a in index ==> index[a] == FirstNew(outs, |outs|, a).value)
  }

  lemma {:induction false} FirstNewPrefix(outs: seq<Output>, o: Output, n: nat, a: Addr)
    requires n <= |outs|
    ensures FirstNew(outs + [o], n, a) == FirstNew(outs, n, a)
  {
    if n > 0 {
      FirstNewPrefix(outs, o, n - 1, a);
    }
  }

  lemma NewIndexed(outs: seq<Output>, o: Output)
    ensures forall a: Addr :: FirstNew(outs + [o], |outs| + 1, a) ==
              (if o == Tracked(a, Unaliased) then Some(|outs|) else FirstNew(outs, |outs|, a))
  {
    forall a: Addr
      ensures FirstNew(outs + [o], |outs| + 1, a) == (if o == Tracked(a, Unaliased) then Some(|outs|) else FirstNew(outs, |outs|, a))
    {
      FirstNewPrefix(outs, o, |outs|, a);
    }
  }

  lemma IndexesNext(index: map<Addr, nat>, outs: seq<Output>, o: Output)
    requires IndexesNew(index, outs)
    ensures IndexesNew(if o.Tracked? && o.alias.Unaliased? then index[o.ptr := |outs|] else index, outs + [o])
  {
    NewIndexed(outs, o);
    hide FirstNew;
  }

  lemma FlagsExtended(outs: seq<Output>, o: Output)
    requires BackwardOnly(outs) && (o.Tracked? && o.alias.NewOutput? ==> o.alias.position < |outs|)
    ensures OwnFlags(outs + [o]) ==
            (if o.Tracked? && o.alias.NewOutput? then OwnFlags(outs)[o.alias.position := false] else OwnFlags(outs)) +
            [o.Tracked? && o.alias.Unaliased?]
  {
    var longer := outs + [o];
    forall i | 0 <= i < |outs|
      ensures OwnFlag(longer, i) <==> OwnFlag(outs, i) && !(o.Tracked? && o.alias == NewOutput(i))
    {
      assert longer[|outs|] == o;
      if OwnFlag(longer, i) {
        forall j | 0 <= j < |outs|
          ensures !(outs[j].Tracked? && outs[j].alias == NewOutput(i))
        {
          assert longer[j] == outs[j];
        }
      }
    }
    assert OwnFlags(longer)[..|outs|] ==
           if o.Tracked? && o.alias.NewOutput? then OwnFlags(outs)[o.alias.position := false] else OwnFlags(outs);
    assert OwnFlag(longer, |outs|) <==> o.Tracked? && o.alias.Unaliased?;
    assert OwnFlags(longer) == OwnFlags(longer)[..|outs|] + [OwnFlag(longer, |outs|)];
  }

  /** Outputs alias only outputs before them. */
  ghost predicate BackwardOnly(outs: seq<Output>) {
    forall j :: 0 <= j < |outs| && outs[j].Tracked? && outs[j].alias.NewOutput? ==> outs[j].alias.position < j
  }

  lemma NothingMarked(unaliased: map<GraphId, seq<bool>>, path: seq<GraphId>)
    ensures MarkAliased(unaliased, path, []) == unaliased
  {
    forall id | id in unaliased
      ensures MarkAliased(unaliased, path, [])[id] == unaliased[id]
    {
    }
  }

  lemma MarkedLengths(unaliased: map<GraphId, seq<bool>>, path: seq<GraphId>, outs: seq<Output>)
    ensures var m := MarkAliased(unaliased, path, outs);
            m.Keys == unaliased.Keys && forall id :: id in unaliased ==> |m[id]| == |unaliased[id]|
  {
  }

  lemma MarkedMore(unaliased: map<GraphId, seq<bool>>, path: seq<GraphId>, outs: seq<Output>, o: Output)
    requires o.Tracked? && o.alias.PriorOutput? ==>
               var p := o.alias.index;
               p.depth < |path| && path[p.depth] in unaliased && p.output < |unaliased[path[p.depth]]|
    ensures MarkAliased(unaliased, path, outs + [o]) ==
            var m := MarkAliased(unaliased, path, outs);
            if o.Tracked? && o.alias.PriorOutput? then
              var p := o.alias.index;
              m[path[p.depth] := m[path[p.depth]][p.output := false]]
            else m
  {
    var longer := outs + [o];
    forall id, i: nat
      ensures AliasesPrior(path, longer, id, i) <==>
              AliasesPrior(path, outs, id, i) ||
              (o.Tracked? && o.alias.PriorOutput? && o.alias.index.depth < |path| &&
               path[o.alias.index.depth] == id && o.alias.index.output == i)
    {
      assert longer[|outs|] == o;
      assert forall j :: 0 <= j < |outs| ==> longer[j] == outs[j];
    }
    var m, n := MarkAliased(unaliased, path, outs), MarkAliased(unaliased, path, longer);
    forall id | id in unaliased
      ensures n[id] == if o.Tracked? && o.alias.PriorOutput? && path[o.alias.index.depth] == id then m[id][o.alias.index.output := false] else m[id]
    {
    }
  }

  lemma RecordingPathFlags(s: State)
    requires CanRecord(s)
    ensures PathPlain(s.slots, CurPath(s)) && FlagsCover(CurPath(s), s.slots, s.unaliased)
  {
    RecordPathShape(s);
    forall d: nat, i: nat | InPath(s.slots, CurPath(s), d, i)
      ensures CurPath(s)[d] in s.unaliased && i < |s.unaliased[CurPath(s)[d]]|
    {
      var node := CurPath(s)[d];
      assert node in s.recs;
      assert NodeOk(s, node);
    }
  }

  lemma ChangedAreTracked(s: State)
    requires Sound(s) && AtGraphNode(s)
    ensures var ix := ChangedIndices(s);
            forall k :: 0 <= k < |ix| ==> TrackedAt(s.recs, CurPath(s), ix[k].depth, ix[k].output)
  {
    hide Sound;
    var ix := ChangedIndices(s);
    forall k | 0 <= k < |ix|
      ensures TrackedAt(s.recs, CurPath(s), ix[k].depth, ix[k].output)
    {
      ChangedIsDied(s, ix[k]);
      SlotPtr(s, ix[k].depth, ix[k].output);
    }
  }

  /** Nothing is ever recorded behind a warmup node. */
  lemma RecordsBelowGraphNode(s: State)
    requires CanRecord(s)
    ensures s.current.Some? ==> AtGraphNode(s)
  {
    RecordPathShape(s);
  }

  /** What rebuilding a node works from. */
  datatype Rebuild = Rebuild(r: GraphRecord, slots: Slots, row: Row, flags: seq<bool>, cached: bool, base: StorageId)

  /** Rows, flags and checks fit the recorded outputs, and outputs alias earlier ones. */
  ghost predicate CanRebuild(b: Rebuild) {
    && |b.row| == |b.flags| == |b.r.outs|
    && (forall i: nat :: i < |b.row| ==>
          && (b.row[i].Some? <==> b.r.outs[i].Tracked?)
          && (b.flags[i] ==> b.r.outs[i].Tracked? && b.r.outs[i].alias.Unaliased?)
          && (b.row[i].Some? ==> (b.row[i].value.extra <==> b.cached && b.flags[i])))
    && (forall i: nat :: i < |b.row| && b.r.outs[i].Tracked? && b.r.outs[i].alias.NewOutput? ==>
          b.r.outs[i].alias.position < i && b.row[b.r.outs[i].alias.position].Some?)
  }

  function HalfRow(b: Rebuild, n: nat): (out: Row)
    requires |b.row| == |b.r.outs|
    ensures |out| == |b.row|
  {
    HalfRebuiltRow(b.r, b.slots, b.row, b.flags, b.cached, b.base, n)
  }

  lemma FirstGoneOrLive(h: Heap, slots: Slots, r: GraphRecord)
    ensures AliasedPriorsLive(h, slots, r) <==> FirstGone(h, slots, r, 0) == |r.outs|
  {
    FirstGoneFrom(h, slots, r, 0);
  }

  lemma {:induction false} FirstGoneFrom(h: Heap, slots: Slots, r: GraphRecord, n: nat)
    requires n <= |r.outs|
    ensures n <= FirstGone(h, slots, r, n) <= |r.outs|
    ensures FirstGone(h, slots, r, n) == |r.outs| <==>
            forall i :: n <= i < |r.outs| && r.outs[i].Tracked? && r.outs[i].alias.PriorOutput? ==>
              LiveAt(h, slots, r.path, r.outs[i].alias.index.depth, r.outs[i].alias.index.output)
    decreases |r.outs| - n
  {
    hide LiveAt;
    if n < |r.outs| {
      FirstGoneFrom(h, slots, r, n + 1);
    }
  }

  lemma WholeRebuilt(b: Rebuild)
    requires |b.row| == |b.r.outs|
    ensures HalfRow(b, |b.r.outs|) == RebuiltRow(b.r, b.slots, b.row, b.flags, b.cached, b.base)
  {
    hide RebuiltStorage;
  }

  /** A filled cache: the flagged outputs are rebuilt before any other. */
  lemma HalfStart(b: Rebuild, row: Row)
    requires CanRebuild(b) && |row| == |b.row|
    requires b.cached ==> row == b.row
    requires !b.cached ==> forall i :: 0 <= i < |row| ==>
               row[i] == if b.flags[i] then Some(WeakRef(b.base + i, b.row[i].value.ptr, true)) else b.row[i]
    ensures row == HalfRow(b, 0)
  {
    forall i | 0 <= i < |row|
      ensures row[i] == HalfRow(b, 0)[i]
    {
    }
  }

  /** One more output: what its slot is, and how the row changes. */
  lemma HalfNext(b: Rebuild, i: nat)
    requires CanRebuild(b) && i < |b.row|
    ensures |HalfRow(b, i)| == |b.row|
    ensures !b.r.outs[i].Tracked? || b.flags[i] ==> HalfRow(b, i + 1) == HalfRow(b, i)
    ensures b.r.outs[i].Tracked? ==> HalfRow(b, i)[i].Some?
    ensures b.r.outs[i].Tracked? && b.r.outs[i].alias.NewOutput? ==>
              b.r.outs[i].alias.position < i && HalfRow(b, i)[b.r.outs[i].alias.position].Some?
    ensures b.r.outs[i].Tracked? && !b.flags[i] &&
            (b.r.outs[i].alias.PriorOutput? ==> InPath(b.slots, b.r.path, b.r.outs[i].alias.index.depth, b.r.outs[i].alias.index.output)) ==>
              HalfRow(b, i + 1) == HalfRow(b, i)[i := Some(HalfRow(b, i)[i].value.(storage := RebuiltOn(b, i)))]
  {
    assert forall j :: 0 <= j < |b.row| && j != i ==> HalfRow(b, i + 1)[j] == HalfRow(b, i)[j];
    assert b.r.outs[i].Tracked? && !b.flags[i] ==> HalfRow(b, i)[i] == b.row[i];
  }

  /** The storage that output `i` is rebuilt on. */
  function RebuiltOn(b: Rebuild, i: nat): StorageId
    requires i < |b.row| == |b.r.outs| && b.r.outs[i].Tracked?
    requires b.r.outs[i].alias.NewOutput? ==> b.r.outs[i].alias.position < i && HalfRow(b, i)[b.r.outs[i].alias.position].Some?
    requires b.r.outs[i].alias.PriorOutput? ==> InPath(b.slots, b.r.path, b.r.outs[i].alias.index.depth, b.r.outs[i].alias.index.output)
  {
    match b.r.outs[i].alias
    case Unaliased => b.base + i
    case PriorOutput(p) => SlotAt(b.slots, b.r.path, p.depth, p.output).storage
    case NewOutput(j) => HalfRow(b, i)[j].value.storage
  }

  function RebuildOf(s: State, id: GraphId): Rebuild
    requires Replayable(s, id)
  {
    Rebuild(s.recs[id], s.slots, s.slots[id], s.unaliased[id], s.caches[id] != [], s.nextStorage)
  }

  lemma CanRebuildLengths(b: Rebuild)
    requires CanRebuild(b)
    ensures |b.row| == |b.flags| == |b.r.outs|
    ensures forall i: nat :: i < |b.row| && b.flags[i] ==> b.r.outs[i].Tracked? && b.r.outs[i].alias.Unaliased?
  {
  }

  lemma FlaggedHaveSlots(b: Rebuild)
    requires CanRebuild(b)
    ensures |b.flags| == |b.row| && forall i :: 0 <= i < |b.row| && b.flags[i] ==> b.row[i].Some?
  {
  }

  /** Every node of a sound state can be rebuilt. */
  lemma NodeIsRebuildable(s: State, id: GraphId)
    requires Sound(s) && id in s.recs
    ensures Replayable(s, id) && CanRebuild(RebuildOf(s, id))
  {
    assert NodeOk(s, id);
    forall i: nat | i < |s.recs[id].outs| && s.recs[id].outs[i].Tracked? && s.recs[id].outs[i].alias.NewOutput?
      ensures var j := s.recs[id].outs[i].alias.position;
              j < i && s.recs[id].outs[j].Tracked?
    {
      NewOutputTarget(s, id, i);
    }
  }

  /** The three ways a replay can go. */
  lemma ReplayCases(cfg: Config, s: State, id: GraphId, c: Call)
    requires Replayable(s, id)
    ensures var o := ReplayResult(cfg, s, id, c, [s]).outcome;
            var r := s.recs[id];
            if !RerecordsOnMovedStatics(cfg) && !StaticsStable(r, ClearAt(c.inputs, r.managed)) then
              o == Failed(StaticInputMoved) && AfterReplay(cfg, s, id, c) == StoppedAtInputs(s, id, c.rest, c.inputs)
            else if !AliasedPriorsLive(RebuildHeap(r, c.rest, c.inputs), s.slots, r) then
              o == Failed(AliasedOutputGone) && AfterReplay(cfg, s, id, c) == StoppedAtOutputs(s, id, c.rest, c.inputs)
            else
              o == Replayed(id) && AfterReplay(cfg, s, id, c) == Replay(s, id, c.rest)
  {
    hide StaticsStable;
    hide AliasedPriorsLive;
    hide RebuildHeap;
    hide ClearAt;
    hide StoppedAtInputs;
    hide StoppedAtOutputs;
    hide Replay;
  }
}
