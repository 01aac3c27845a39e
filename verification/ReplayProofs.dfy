/**
 A replay never touches memory that is still in use, rebuilds the alias
 structure of the recording, and keeps the manager's invariant.
 */
module ReplayProofs {
  import opened Options
  import opened Storages
  import opened PathIndices
  import opened TreeState
  import opened PathOps
  import opened Recordings
  import opened Replays

  /** `id` is a recorded child of the current position, and `rest` are the references
      the caller holds outside the input list. */
  ghost predicate CanProbe(s: State, id: GraphId, rest: Heap, inputs: seq<Input>) {
    && Valid(s) && s.pathState in {NoPath, Executing}
    && id in s.recs && s.recs[id].path == CurPath(s) + [id]
    && s.heap == HeapWith(rest, inputs)
  }

  /** The conditions under which the source goes on to replay. */
  ghost predicate Accepted(s: State, id: GraphId, rest: Heap, inputs: seq<Input>)
    requires id in s.recs
  {
    && AllIndexedDead(s.heap, s.slots, s.recs[id].path, s.recs[id].deadBefore)
    && AllIndexedDead(HeapWith(rest, ClearAt(inputs, s.recs[id].managed)), s.slots, s.recs[id].path, s.recs[id].deadAfter)
  }

  lemma SuccessIsAccepted(rerecord: bool, s: State, id: GraphId, rest: Heap, inputs: seq<Input>)
    requires id in s.recs && CheckInvariants(rerecord, s, s.recs[id], rest, inputs) == Success
    ensures Accepted(s, id, rest, inputs)
  {
  }

  // ---------------------------------------------------------------- heaps

  lemma ClearedHeapFollows(rest: Heap, inputs: seq<Input>, fewer: seq<Input>, n: StorageId)
    requires |fewer| == |inputs| && forall i :: 0 <= i < |inputs| && fewer[i].Tensor? ==> fewer[i] == inputs[i]
    ensures Follows(HeapWith(rest, fewer), HeapWith(rest, inputs), n, n)
  {
    forall x: StorageId | Held(HeapWith(rest, fewer), x)
      ensures Held(HeapWith(rest, inputs), x)
    {
      if x in InputStorages(fewer) {
        var i :| 0 <= i < |fewer| && fewer[i].Tensor? && fewer[i].storage == x;
        assert inputs[i] == fewer[i];
      }
    }
  }

  lemma ParentPath(s: State, id: GraphId, rest: Heap, inputs: seq<Input>)
    requires CanProbe(s, id, rest, inputs)
    ensures id !in CurPath(s)
    ensures |CurPath(s)| > 0 ==> AtGraphNode(s) && CurPath(s) == s.recs[s.current.value].path &&
                                 s.recs[id].path[|CurPath(s)| - 1] == s.current.value
  {
    assert RecordOk(s.recs, id);
    if s.current.Some? {
      assert AtGraphNode(s);
      assert RecordOk(s.recs, s.current.value);
    }
    forall d | 0 <= d < |CurPath(s)|
      ensures CurPath(s)[d] != id
    {
      assert s.recs[id].path[d] == CurPath(s)[d];
      assert |s.recs[s.recs[id].path[d]].path| == d + 1;
    }
  }

  // ---------------------------------------------------------------- no clobbering

  lemma LiveIsNotIndexed(h: Heap, slots: Slots, path: seq<GraphId>, indices: seq<PathIndex>, d: nat, i: nat)
    requires AllIndexedDead(h, slots, path, indices) && LiveAt(h, slots, path, d, i)
    ensures PathIndex(d, i) !in indices
  {
    forall k | 0 <= k < |indices|
      ensures indices[k] != PathIndex(d, i)
    {
      assert !LiveAt(h, slots, path, indices[k].depth, indices[k].output);
    }
  }

  /** What is live once the managed inputs are cleared was live before, and so was live
      when the current node's recording ended. */
  lemma ProbedLiveness(s: State, id: GraphId, rest: Heap, inputs: seq<Input>, d: nat, i: nat)
    requires CanProbe(s, id, rest, inputs)
    requires LiveAt(HeapWith(rest, ClearAt(inputs, s.recs[id].managed)), s.slots, CurPath(s), d, i)
    ensures AtGraphNode(s) && At(s.recs[s.current.value].after, d, i)
    ensures LiveAt(s.heap, s.slots, CurPath(s), d, i)
  {
    var fewer := ClearAt(inputs, s.recs[id].managed);
    ClearedHeapFollows(rest, inputs, fewer, s.nextStorage);
    LivenessFalls(HeapWith(rest, fewer), s.heap, s.slots, s.nextStorage, s.nextStorage, CurPath(s), d, i);
  }

  /** Every ancestor slot that is live when the child is accepted was live at the end of
      the child's recording: one dead before it, or that died during it, is dead now. */
  lemma AcceptedLiveness(s: State, id: GraphId, rest: Heap, inputs: seq<Input>, d: nat, i: nat)
    requires CanProbe(s, id, rest, inputs) && Accepted(s, id, rest, inputs)
    requires LiveAt(HeapWith(rest, ClearAt(inputs, s.recs[id].managed)), s.slots, CurPath(s), d, i)
    ensures At(s.recs[id].before, d, i) && At(s.recs[id].after, d, i)
  {
    ProbedRecord(s, id, rest, inputs);
    ParentPath(s, id, rest, inputs);
    ProbedLiveness(s, id, rest, inputs, d, i);
    hide CanProbe;
    var r := s.recs[id];
    LiveOnLongerPath(s.heap, s.slots, CurPath(s), id, d, i);
    LiveOnLongerPath(HeapWith(rest, ClearAt(inputs, r.managed)), s.slots, CurPath(s), id, d, i);
    LiveIsNotIndexed(s.heap, s.slots, r.path, r.deadBefore, d, i);
    LiveIsNotIndexed(HeapWith(rest, ClearAt(inputs, r.managed)), s.slots, r.path, r.deadAfter, d, i);
    IndexedOut(s.recs, id, s.current.value, d, i);
  }

  lemma ProbedRecord(s: State, id: GraphId, rest: Heap, inputs: seq<Input>)
    requires CanProbe(s, id, rest, inputs)
    ensures id in s.recs && s.recs[id].path == CurPath(s) + [id] && PathOk(s.recs, id) && IndicesOk(s.recs, id)
  {
    assert RecordOk(s.recs, id);
  }

  lemma LiveOnLongerPath(h: Heap, slots: Slots, path: seq<GraphId>, id: GraphId, d: nat, i: nat)
    ensures d < |path| ==>
              && (InPath(slots, path + [id], d, i) <==> InPath(slots, path, d, i))
              && (InPath(slots, path, d, i) ==> SlotAt(slots, path + [id], d, i) == SlotAt(slots, path, d, i))
              && (LiveAt(h, slots, path + [id], d, i) <==> LiveAt(h, slots, path, d, i))
  {
    if d < |path| {
      assert (path + [id])[d] == path[d];
    }
  }

  /** A slot live after the parent's recording and in neither index list was live throughout. */
  lemma IndexedOut(recs: map<GraphId, GraphRecord>, id: GraphId, parent: GraphId, d: nat, i: nat)
    requires id in recs && PathOk(recs, id) && IndicesOk(recs, id) && |recs[id].path| > 1
    requires parent == recs[id].path[|recs[id].path| - 2] && parent in recs && At(recs[parent].after, d, i)
    requires PathIndex(d, i) !in recs[id].deadBefore && PathIndex(d, i) !in recs[id].deadAfter
    ensures At(recs[id].before, d, i) && At(recs[id].after, d, i)
  {
    var p := PathIndex(d, i);
    assert At(recs[parent].after, p.depth, p.output);
  }

  /** No storage of the path that is live when a child is accepted occupies an address
      that the child's kernels were given while they were recorded. */
  lemma ReplayNeverClobbers(s: State, id: GraphId, rest: Heap, inputs: seq<Input>, d: nat, i: nat)
    requires CanProbe(s, id, rest, inputs) && Accepted(s, id, rest, inputs)
    requires LiveAt(HeapWith(rest, ClearAt(inputs, s.recs[id].managed)), s.slots, CurPath(s), d, i)
    ensures SlotAt(s.slots, CurPath(s), d, i).ptr !in s.recs[id].scratch
  {
    var r := s.recs[id];
    AcceptedLiveness(s, id, rest, inputs, d, i);
    assert RecordOk(s.recs, id);
    var node := CurPath(s)[d];
    assert node == r.path[d];
    assert NodeOk(s, node);
    assert TrackedAt(s.recs, r.path, d, i);
    assert PtrAt(s.recs, r.path, d, i) == SlotAt(s.slots, CurPath(s), d, i).ptr;
  }

  // ---------------------------------------------------------------- the rebuilt row

  /** What rebuilding starts from. */
  ghost predicate CanReplay(s: State, id: GraphId, rest: Heap, inputs: seq<Input>) {
    && CanProbe(s, id, rest, inputs) && Accepted(s, id, rest, inputs)
    && AliasedPriorsLive(RebuildHeap(s.recs[id], rest, inputs), s.slots, s.recs[id])
  }

  lemma ReplayDefined(s: State, id: GraphId)
    requires Sound(s) && id in s.recs
    ensures id in s.slots && id in s.unaliased && id in s.caches && |s.slots[id]| == |s.recs[id].outs|
    ensures |s.unaliased[id]| == |s.recs[id].outs|
    ensures forall i: nat :: i < |s.recs[id].outs| ==>
              && (s.slots[id][i].Some? <==> s.recs[id].outs[i].Tracked?)
              && (s.slots[id][i].Some? ==> s.slots[id][i].value.ptr == s.recs[id].outs[i].ptr)
              && (s.unaliased[id][i] ==> s.recs[id].outs[i].Tracked? && s.recs[id].outs[i].alias.Unaliased?)
  {
    assert NodeOk(s, id);
  }

  /** A prior output that is aliased is uncached and reachable. */
  lemma PriorSlot(s: State, id: GraphId, rest: Heap, inputs: seq<Input>, i: nat)
    requires CanReplay(s, id, rest, inputs)
    requires i < |s.recs[id].outs| && s.recs[id].outs[i].Tracked? && s.recs[id].outs[i].alias.PriorOutput?
    ensures var p := s.recs[id].outs[i].alias.index;
            && p.depth < |CurPath(s)|
            && LiveAt(RebuildHeap(s.recs[id], rest, inputs), s.slots, CurPath(s), p.depth, p.output)
            && InPath(s.slots, s.recs[id].path, p.depth, p.output)
            && SlotAt(s.slots, s.recs[id].path, p.depth, p.output) == SlotAt(s.slots, CurPath(s), p.depth, p.output)
            && !SlotAt(s.slots, CurPath(s), p.depth, p.output).extra
            && SlotAt(s.slots, CurPath(s), p.depth, p.output).storage !in s.heap.cached
            && SlotAt(s.slots, CurPath(s), p.depth, p.output).storage < s.nextStorage
            && SlotAt(s.slots, CurPath(s), p.depth, p.output).ptr == s.recs[id].outs[i].ptr
            && At(s.recs[id].after, p.depth, p.output)
  {
    var r := s.recs[id];
    var p := r.outs[i].alias.index;
    assert RecordOk(s.recs, id);
    assert AliasOk(s.recs, id, i);
    ParentPath(s, id, rest, inputs);
    var node := CurPath(s)[p.depth];
    assert node == r.path[p.depth] && node in s.recs;
    assert NodeOk(s, node);
    assert !FlagAt(s.unaliased, node, p.output);
    LiveOnLongerPath(RebuildHeap(r, rest, inputs), s.slots, CurPath(s), id, p.depth, p.output);
    assert SlotIn(s.slots, node, p.output);
    assert Tracks(s.heap, s.slots[node][p.output]);
  }

  /** A position that a later output aliases holds the first, uncached output of its
      address, rebuilt before it. */
  lemma NewOutputTarget(s: State, id: GraphId, i: nat)
    requires Sound(s) && id in s.recs
    requires i < |s.recs[id].outs| && s.recs[id].outs[i].Tracked? && s.recs[id].outs[i].alias.NewOutput?
    ensures var j := s.recs[id].outs[i].alias.position;
            && j < i && s.recs[id].outs[j] == Tracked(s.recs[id].outs[i].ptr, Unaliased)
            && id in s.unaliased && !Flagged(s.unaliased[id], j)
  {
    assert RecordOk(s.recs, id);
    assert AliasOk(s.recs, id, i);
    assert NodeOk(s, id);
  }

  /** The storage a rebuilt output has. */
  function StorageOf(s: State, id: GraphId, i: nat): StorageId
    requires id in s.recs && id in s.slots && id in s.unaliased && id in s.caches
  {
    RebuiltStorage(s.recs[id], s.slots, s.slots[id], s.unaliased[id], s.caches[id] != [], s.nextStorage, i)
  }

  /** Cached outputs keep or get a storage of their own; of the others, those that
      introduced their address get a new one and the rest share. */
  lemma RebuiltStorageSpec(s: State, id: GraphId, rest: Heap, inputs: seq<Input>, i: nat)
    requires CanReplay(s, id, rest, inputs)
    requires i < |s.recs[id].outs| && s.recs[id].outs[i].Tracked?
    requires id in s.slots && id in s.unaliased && id in s.caches
    ensures var x := StorageOf(s, id, i);
            match s.recs[id].outs[i].alias
            case Unaliased =>
              if Flagged(s.unaliased[id], i) && s.caches[id] != [] then SlotIn(s.slots, id, i) && x == s.slots[id][i].value.storage
              else x == s.nextStorage + i
            case PriorOutput(p) =>
              InPath(s.slots, CurPath(s), p.depth, p.output) && x == SlotAt(s.slots, CurPath(s), p.depth, p.output).storage
            case NewOutput(j) => j < i && x == s.nextStorage + j
  {
    ReplayDefined(s, id);
    match s.recs[id].outs[i].alias
    case Unaliased =>
    case PriorOutput(p) => PriorSlot(s, id, rest, inputs, i);
    case NewOutput(j) =>
      NewOutputTarget(s, id, i);
      assert StorageOf(s, id, j) == s.nextStorage + j;
  }

  lemma ReplayRowAt(s: State, id: GraphId, rest: Heap, i: nat)
    requires Sound(s) && id in s.recs
    ensures id in s.slots && id in s.unaliased && id in s.caches && |s.slots[id]| == |s.recs[id].outs|
    ensures var row := Replay(s, id, rest).slots[id];
            && |row| == |s.recs[id].outs|
            && (i < |row| ==>
                  && (row[i].Some? <==> s.recs[id].outs[i].Tracked?)
                  && (row[i].Some? ==> row[i].value == WeakRef(StorageOf(s, id, i), s.recs[id].outs[i].ptr, Flagged(s.unaliased[id], i))))
  {
    ReplayDefined(s, id);
  }

  // ---------------------------------------------------------------- alias structure

  /** A replay rebuilds the alias structure of the recording: two tracked outputs get
      the same storage exactly when they were recorded at the same address. */
  lemma ReplayPreservesAliases(s: State, id: GraphId, rest: Heap, inputs: seq<Input>, i: nat, j: nat)
    requires CanReplay(s, id, rest, inputs)
    requires i < |s.recs[id].outs| && s.recs[id].outs[i].Tracked? && j < |s.recs[id].outs| && s.recs[id].outs[j].Tracked?
    requires id in s.slots && id in s.unaliased && id in s.caches
    ensures StorageOf(s, id, i) == StorageOf(s, id, j) <==> s.recs[id].outs[i].ptr == s.recs[id].outs[j].ptr
  {
    if i < j {
      OrderedAliases(s, id, rest, inputs, i, j);
    } else if j < i {
      OrderedAliases(s, id, rest, inputs, j, i);
    }
  }

  lemma OrderedAliases(s: State, id: GraphId, rest: Heap, inputs: seq<Input>, i: nat, j: nat)
    requires CanReplay(s, id, rest, inputs) && i < j
    requires i < |s.recs[id].outs| && s.recs[id].outs[i].Tracked? && j < |s.recs[id].outs| && s.recs[id].outs[j].Tracked?
    requires id in s.slots && id in s.unaliased && id in s.caches
    ensures StorageOf(s, id, i) == StorageOf(s, id, j) <==> s.recs[id].outs[i].ptr == s.recs[id].outs[j].ptr
  {
    var r := s.recs[id];
    RebuiltStorageSpec(s, id, rest, inputs, i);
    RebuiltStorageSpec(s, id, rest, inputs, j);
    assert RecordOk(s.recs, id);
    assert AliasOk(s.recs, id, i) && AliasOk(s.recs, id, j);
    match r.outs[i].alias
    case PriorOutput(p) => {
      match r.outs[j].alias
      case PriorOutput(q) => PriorsShare(s, id, rest, inputs, i, j);
      case Unaliased => PriorIsNotNew(s, id, rest, inputs, i, j);
      case NewOutput(k) => NewOutputTarget(s, id, j); PriorIsNotNew(s, id, rest, inputs, i, k);
    }
    case Unaliased => {
      match r.outs[j].alias
      case PriorOutput(q) => PriorIsNotNew(s, id, rest, inputs, j, i);
      case Unaliased => CachedOrNew(s, id, i, j);
      case NewOutput(k) => NewOutputTarget(s, id, j); FirstsDiffer(s, id, i, k); if i != k { CachedOrNew(s, id, i, k); }
    }
    case NewOutput(k) => {
      NewOutputTarget(s, id, i);
      match r.outs[j].alias
      case PriorOutput(q) => PriorIsNotNew(s, id, rest, inputs, j, k);
      case Unaliased => CachedOrNew(s, id, j, k);
      case NewOutput(m) => NewOutputTarget(s, id, j); FirstsDiffer(s, id, k, m);
    }
  }

  /** Two outputs that introduced their addresses have different addresses. */
  lemma FirstsDiffer(s: State, id: GraphId, i: nat, k: nat)
    requires Sound(s) && id in s.recs && i < |s.recs[id].outs| && k < |s.recs[id].outs|
    requires s.recs[id].outs[i].Tracked? && s.recs[id].outs[i].alias.Unaliased?
    requires s.recs[id].outs[k].Tracked? && s.recs[id].outs[k].alias.Unaliased?
    ensures s.recs[id].outs[i].ptr == s.recs[id].outs[k].ptr <==> i == k
  {
    assert RecordOk(s.recs, id);
    assert AliasOk(s.recs, id, i) && AliasOk(s.recs, id, k);
  }

  /** A cached output's storage is older than the storages a replay makes, and no other slot's. */
  lemma CachedOrNew(s: State, id: GraphId, i: nat, k: nat)
    requires Sound(s) && id in s.recs && i < |s.recs[id].outs| && k < |s.recs[id].outs| && i != k
    requires s.recs[id].outs[i].Tracked? && s.recs[id].outs[i].alias.Unaliased?
    requires s.recs[id].outs[k].Tracked? && s.recs[id].outs[k].alias.Unaliased?
    ensures id in s.slots && id in s.unaliased && id in s.caches
    ensures StorageOf(s, id, i) != StorageOf(s, id, k)
    ensures s.recs[id].outs[i].ptr != s.recs[id].outs[k].ptr
  {
    FirstsDiffer(s, id, i, k);
    assert NodeOk(s, id);
    assert SlotIn(s.slots, id, i) && SlotIn(s.slots, id, k);
  }

  /** An aliased prior storage is neither a new one nor a cached one of this node. */
  lemma PriorIsNotNew(s: State, id: GraphId, rest: Heap, inputs: seq<Input>, i: nat, k: nat)
    requires CanReplay(s, id, rest, inputs) && i < |s.recs[id].outs| && k < |s.recs[id].outs|
    requires s.recs[id].outs[i].Tracked? && s.recs[id].outs[i].alias.PriorOutput?
    requires s.recs[id].outs[k].Tracked? && s.recs[id].outs[k].alias.Unaliased?
    ensures id in s.slots && id in s.unaliased && id in s.caches
    ensures StorageOf(s, id, i) != StorageOf(s, id, k)
    ensures s.recs[id].outs[i].ptr != s.recs[id].outs[k].ptr
  {
    var r := s.recs[id];
    ReplayDefined(s, id);
    PriorSlot(s, id, rest, inputs, i);
    RebuiltStorageSpec(s, id, rest, inputs, i);
    RebuiltStorageSpec(s, id, rest, inputs, k);
    assert RecordOk(s.recs, id);
    assert AliasOk(s.recs, id, k) && AliasOk(s.recs, id, i);
    assert NodeOk(s, id);
    assert SlotIn(s.slots, id, k);
    assert Tracks(s.heap, s.slots[id][k]);
  }

  /** Ancestor slots that lived through the recording share a storage exactly when at one address. */
  lemma AncestorsShare(s: State, id: GraphId, rest: Heap, inputs: seq<Input>, p: PathIndex, q: PathIndex)
    requires CanProbe(s, id, rest, inputs)
    requires At(s.recs[id].after, p.depth, p.output) && InPath(s.slots, CurPath(s), p.depth, p.output)
    requires At(s.recs[id].after, q.depth, q.output) && InPath(s.slots, CurPath(s), q.depth, q.output)
    ensures SlotAt(s.slots, CurPath(s), p.depth, p.output).storage == SlotAt(s.slots, CurPath(s), q.depth, q.output).storage <==>
            SlotAt(s.slots, CurPath(s), p.depth, p.output).ptr == SlotAt(s.slots, CurPath(s), q.depth, q.output).ptr
  {
    assert RecordOk(s.recs, id);
    ParentPath(s, id, rest, inputs);
    var after := s.recs[s.current.value].after;
    assert At(after, p.depth, p.output) && At(after, q.depth, q.output);
  }

  /** Two outputs that alias earlier nodes share a storage exactly when at one address. */
  lemma PriorsShare(s: State, id: GraphId, rest: Heap, inputs: seq<Input>, i: nat, j: nat)
    requires CanReplay(s, id, rest, inputs) && i < |s.recs[id].outs| && j < |s.recs[id].outs|
    requires s.recs[id].outs[i].Tracked? && s.recs[id].outs[i].alias.PriorOutput?
    requires s.recs[id].outs[j].Tracked? && s.recs[id].outs[j].alias.PriorOutput?
    ensures var p, q := s.recs[id].outs[i].alias.index, s.recs[id].outs[j].alias.index;
            && InPath(s.slots, CurPath(s), p.depth, p.output) && InPath(s.slots, CurPath(s), q.depth, q.output)
            && (SlotAt(s.slots, CurPath(s), p.depth, p.output).storage == SlotAt(s.slots, CurPath(s), q.depth, q.output).storage
                <==> s.recs[id].outs[i].ptr == s.recs[id].outs[j].ptr)
  {
    PriorSlot(s, id, rest, inputs, i);
    PriorSlot(s, id, rest, inputs, j);
    AncestorsShare(s, id, rest, inputs,
      s.recs[id].outs[i].alias.index, s.recs[id].outs[j].alias.index);
  }

  /** An output shares the storage of an ancestor's slot that lived through the recording
      exactly when it was recorded at that slot's address. */
  lemma ReplaySharesWithAncestors(s: State, id: GraphId, rest: Heap, inputs: seq<Input>, i: nat, p: PathIndex)
    requires CanReplay(s, id, rest, inputs) && i < |s.recs[id].outs| && s.recs[id].outs[i].Tracked?
    requires At(s.recs[id].after, p.depth, p.output) && InPath(s.slots, CurPath(s), p.depth, p.output)
    requires id in s.slots && id in s.unaliased && id in s.caches
    ensures StorageOf(s, id, i) == SlotAt(s.slots, CurPath(s), p.depth, p.output).storage <==>
            s.recs[id].outs[i].ptr == SlotAt(s.slots, CurPath(s), p.depth, p.output).ptr
  {
    RebuiltStorageSpec(s, id, rest, inputs, i);
    match s.recs[id].outs[i].alias
    case PriorOutput(q) =>
      PriorSlot(s, id, rest, inputs, i);
      AncestorsShare(s, id, rest, inputs, q, p);
    case Unaliased =>
      NewAndAncestor(s, id, rest, inputs, i, p);
    case NewOutput(j) =>
      NewOutputTarget(s, id, i);
      NewAndAncestor(s, id, rest, inputs, j, p);
  }

  lemma NewAndAncestor(s: State, id: GraphId, rest: Heap, inputs: seq<Input>, i: nat, p: PathIndex)
    requires CanProbe(s, id, rest, inputs) && i < |s.recs[id].outs| && s.recs[id].outs[i].Tracked? && s.recs[id].outs[i].alias.Unaliased?
    requires At(s.recs[id].after, p.depth, p.output) && InPath(s.slots, CurPath(s), p.depth, p.output)
    ensures id in s.slots && id in s.unaliased && id in s.caches
    ensures StorageOf(s, id, i) != SlotAt(s.slots, CurPath(s), p.depth, p.output).storage
    ensures s.recs[id].outs[i].ptr != SlotAt(s.slots, CurPath(s), p.depth, p.output).ptr
  {
    var r := s.recs[id];
    ReplayDefined(s, id);
    ParentPath(s, id, rest, inputs);
    assert RecordOk(s.recs, id) && AliasOk(s.recs, id, i);
    var node := CurPath(s)[p.depth];
    assert r.path[p.depth] == node;
    assert NodeOk(s, node) && NodeOk(s, id);
    assert TrackedAt(s.recs, r.path, p.depth, p.output);
    assert SlotIn(s.slots, node, p.output) && SlotIn(s.slots, id, i);
    assert Tracks(s.heap, s.slots[node][p.output]) && Tracks(s.heap, s.slots[id][i]);
  }

  // ---------------------------------------------------------------- the invariant

  /** Adding the entries of a newly filled cache to a registry of older storages. */
  lemma RegistrySpec(cached: map<StorageId, Place>, id: GraphId, flags: seq<bool>, base: StorageId, x: StorageId)
    requires forall y :: y in cached ==> y < base
    ensures var r := cached + CachePlaces(id, flags, base);
            && (x < base ==> (x in r <==> x in cached) && (x in cached ==> r[x] == cached[x]))
            && (x >= base ==> (x in r <==> Flagged(flags, x - base)) && (x in r ==> r[x] == Place(id, x - base)))
  {
    if x >= base && Flagged(flags, x - base) {
      assert flags[x - base];
    }
  }

  /** The registry after a replay: the old entries, and those of a newly filled cache. */
  lemma ReplayedRegistry(s: State, id: GraphId, rest: Heap, x: StorageId)
    requires StoragesBelow(s.heap, s.slots, s.nextStorage) && id in s.recs
    requires id in s.slots && id in s.unaliased && id in s.caches && |s.slots[id]| == |s.recs[id].outs|
    ensures x < s.nextStorage ==>
              (x in Replay(s, id, rest).heap.cached <==> x in s.heap.cached) &&
              (x in s.heap.cached ==> Replay(s, id, rest).heap.cached[x] == s.heap.cached[x])
    ensures x >= s.nextStorage ==>
              (x in Replay(s, id, rest).heap.cached <==> s.caches[id] == [] && Flagged(s.unaliased[id], x - s.nextStorage)) &&
              (x in Replay(s, id, rest).heap.cached ==> Replay(s, id, rest).heap.cached[x] == Place(id, x - s.nextStorage))
  {
    hide RebuiltRow;
    hide CachePlaces;
    hide RowStorages;
    RegistrySpec(s.heap.cached, id, if s.caches[id] != [] then [] else s.unaliased[id], s.nextStorage, x);
  }

  /** Extra checks sit exactly on the cached outputs of the own row. */
  lemma ReplayedSlotTracks(s: State, id: GraphId, rest: Heap, inputs: seq<Input>, i: nat)
    requires CanReplay(s, id, rest, inputs) && i < |s.recs[id].outs| && s.recs[id].outs[i].Tracked?
    requires id in s.slots && id in s.unaliased && id in s.caches && |s.slots[id]| == |s.recs[id].outs|
    ensures var x, cached := StorageOf(s, id, i), Replay(s, id, rest).heap.cached;
            && x < s.nextStorage + |s.recs[id].outs|
            && (Flagged(s.unaliased[id], i) <==> x in cached)
            && (Flagged(s.unaliased[id], i) ==> cached[x] == Place(id, i))
  {
    hide CanReplay;
    hide Replay;
    hide StorageOf;
    CanReplayStorages(s, id, rest, inputs);
    var x := StorageOf(s, id, i);
    ReplayedRegistry(s, id, rest, x);
    RebuiltPlace(s, id, rest, inputs, i);
  }

  lemma CanReplayStorages(s: State, id: GraphId, rest: Heap, inputs: seq<Input>)
    requires CanReplay(s, id, rest, inputs)
    ensures id in s.recs && StoragesBelow(s.heap, s.slots, s.nextStorage)
  {
  }

  lemma RebuiltPlace(s: State, id: GraphId, rest: Heap, inputs: seq<Input>, i: nat)
    requires CanReplay(s, id, rest, inputs) && i < |s.recs[id].outs| && s.recs[id].outs[i].Tracked?
    requires id in s.slots && id in s.unaliased && id in s.caches
    ensures var x, n := StorageOf(s, id, i), s.nextStorage;
            && x < n + |s.recs[id].outs|
            && (x < n ==> (Flagged(s.unaliased[id], i) <==> x in s.heap.cached))
            && (x < n && Flagged(s.unaliased[id], i) ==> s.heap.cached[x] == Place(id, i))
            && (x >= n ==> (Flagged(s.unaliased[id], i) <==> s.caches[id] == [] && Flagged(s.unaliased[id], x - n)))
            && (x >= n && Flagged(s.unaliased[id], i) ==> x == n + i)
  {
    RebuiltStorageSpec(s, id, rest, inputs, i);
    ReplayDefined(s, id);
    match s.recs[id].outs[i].alias
    case Unaliased => CachedSlot(s, id, i);
    case PriorOutput(p) => PriorSlot(s, id, rest, inputs, i);
    case NewOutput(j) => NewOutputTarget(s, id, i);
  }

  lemma CachedSlot(s: State, id: GraphId, i: nat)
    requires Sound(s) && id in s.recs && i < |s.recs[id].outs| && s.recs[id].outs[i].Tracked?
    ensures SlotIn(s.slots, id, i) && s.slots[id][i].value.storage < s.nextStorage
    ensures id in s.caches && id in s.unaliased
    ensures s.caches[id] != [] && Flagged(s.unaliased[id], i) ==>
              s.slots[id][i].value.storage in s.heap.cached && s.heap.cached[s.slots[id][i].value.storage] == Place(id, i)
  {
    assert NodeOk(s, id);
    assert SlotIn(s.slots, id, i);
  }

  lemma OldSlotTracks(s: State, id: GraphId, rest: Heap, jd: GraphId, j: nat)
    requires Sound(s) && id in s.recs && SlotIn(s.slots, jd, j)
    requires id in s.slots && id in s.unaliased && id in s.caches && |s.slots[id]| == |s.recs[id].outs|
    ensures Tracks(Replay(s, id, rest).heap, s.slots[jd][j])
    ensures s.slots[jd][j].value.extra ==> Replay(s, id, rest).heap.cached[s.slots[jd][j].value.storage] == Place(jd, j)
    ensures s.slots[jd][j].value.storage < s.nextStorage
  {
    assert Tracks(s.heap, s.slots[jd][j]);
  }

  lemma ReplayTrackingOk(s: State, id: GraphId, rest: Heap, inputs: seq<Input>)
    requires CanReplay(s, id, rest, inputs)
    requires id in s.slots && id in s.unaliased && id in s.caches && |s.slots[id]| == |s.recs[id].outs|
    ensures TrackingOk(Replay(s, id, rest))
  {
    var t := Replay(s, id, rest);
    forall jd, j: nat | SlotIn(t.slots, jd, j)
      ensures Tracks(t.heap, t.slots[jd][j]) && t.slots[jd][j].value.storage < t.nextStorage
      ensures t.slots[jd][j].value.extra ==>
                t.slots[jd][j].value.storage in t.heap.cached && t.heap.cached[t.slots[jd][j].value.storage] == Place(jd, j)
    {
      if jd == id {
        ReplayRowAt(s, id, rest, j);
        ReplayedSlotTracks(s, id, rest, inputs, j);
      } else {
        assert SlotIn(s.slots, jd, j);
        OldSlotTracks(s, id, rest, jd, j);
      }
    }
    ReplayHeapBelow(s, id, rest, inputs);
  }

  lemma ReplayHeapBelow(s: State, id: GraphId, rest: Heap, inputs: seq<Input>)
    requires CanReplay(s, id, rest, inputs)
    requires id in s.slots && id in s.unaliased && id in s.caches && |s.slots[id]| == |s.recs[id].outs|
    ensures var t := Replay(s, id, rest);
            forall x :: x in t.heap.tensors || x in t.heap.views || x in t.heap.cached ==> x < t.nextStorage
  {
    var t := Replay(s, id, rest);
    forall x | x in t.heap.tensors || x in t.heap.views || x in t.heap.cached
      ensures x < t.nextStorage
    {
      if Held(rest, x) {
        assert Held(s.heap, x);
      } else if x !in t.heap.cached {
        var i :| 0 <= i < |t.slots[id]| && t.slots[id][i].Some? && t.slots[id][i].value.storage == x;
        ReplayRowAt(s, id, rest, i);
        ReplayedSlotTracks(s, id, rest, inputs, i);
      } else if x !in s.heap.cached {
        ReplayDefined(s, id);
      }
    }
  }

  lemma ReplayNodesOk(s: State, id: GraphId, rest: Heap)
    requires Sound(s) && id in s.recs
    ensures id in s.slots && id in s.unaliased && id in s.caches && |s.slots[id]| == |s.recs[id].outs|
    ensures NodesOk(Replay(s, id, rest))
  {
    ReplayDefined(s, id);
    var t := Replay(s, id, rest);
    forall jd | jd in t.recs
      ensures NodeOk(t, jd)
    {
      assert NodeOk(s, jd);
      if jd == id {
        ReplayedNodeOk(s, id, rest);
      }
    }
  }

  lemma ReplayedNodeOk(s: State, id: GraphId, rest: Heap)
    requires Sound(s) && id in s.recs && NodeOk(s, id)
    requires id in s.slots && id in s.unaliased && id in s.caches && |s.slots[id]| == |s.recs[id].outs|
    ensures NodeOk(Replay(s, id, rest), id)
  {
    var t := Replay(s, id, rest);
    var flags, row, cache := t.unaliased[id], t.slots[id], t.caches[id];
    ReplayDefined(s, id);
    forall i | 0 <= i < |row|
      ensures row[i].Some? <==> s.recs[id].outs[i].Tracked?
      ensures row[i].Some? ==> row[i].value.ptr == s.recs[id].outs[i].ptr && row[i].value.extra == flags[i]
      ensures cache != [] && cache[i].Some? ==> row[i].Some? && row[i].value.storage == cache[i].value
    {
      ReplayRowAt(s, id, rest, i);
    }
    assert cache == [] ==> flags == [];
  }

  /** A slot of an ancestor is live after the replay only if it was live throughout the recording. */
  lemma ReplayedAncestor(s: State, id: GraphId, rest: Heap, inputs: seq<Input>, d: nat, i: nat)
    requires CanReplay(s, id, rest, inputs) && InPath(s.slots, CurPath(s), d, i)
    requires id in s.slots && id in s.unaliased && id in s.caches && |s.slots[id]| == |s.recs[id].outs|
    requires Held(Replay(s, id, rest).heap, SlotAt(s.slots, CurPath(s), d, i).storage)
    ensures At(s.recs[id].after, d, i)
  {
    var w := SlotAt(s.slots, CurPath(s), d, i);
    var cleared := HeapWith(rest, ClearAt(inputs, s.recs[id].managed));
    if !Held(rest, w.storage) {
      ReceivedAncestor(s, id, rest, inputs, d, i);
    }
    assert Held(cleared, w.storage);
    ClearedHeapFollows(rest, inputs, ClearAt(inputs, s.recs[id].managed), s.nextStorage);
    FollowsTracking(cleared, s.heap, s.slots, s.nextStorage, s.nextStorage);
    LiveAtIsHeld(cleared, s.slots, CurPath(s), d, i);
    AcceptedLiveness(s, id, rest, inputs, d, i);
  }

  /** An ancestor's storage that the caller receives is an aliased prior output. */
  lemma ReceivedAncestor(s: State, id: GraphId, rest: Heap, inputs: seq<Input>, d: nat, i: nat)
    requires CanReplay(s, id, rest, inputs) && InPath(s.slots, CurPath(s), d, i)
    requires id in s.slots && id in s.unaliased && id in s.caches && |s.slots[id]| == |s.recs[id].outs|
    requires Held(Replay(s, id, rest).heap, SlotAt(s.slots, CurPath(s), d, i).storage)
    requires !Held(rest, SlotAt(s.slots, CurPath(s), d, i).storage)
    ensures Held(HeapWith(rest, ClearAt(inputs, s.recs[id].managed)), SlotAt(s.slots, CurPath(s), d, i).storage)
  {
    var x := SlotAt(s.slots, CurPath(s), d, i).storage;
    var row := Replay(s, id, rest).slots[id];
    var k :| 0 <= k < |row| && row[k].Some? && row[k].value.storage == x;
    ReplayRowAt(s, id, rest, k);
    SharedWithAncestor(s, id, rest, inputs, k, d, i);
    PriorSlot(s, id, rest, inputs, k);
    RebuiltStorageSpec(s, id, rest, inputs, k);
    RebuildHeld(s, id, rest, inputs, s.recs[id].outs[k].alias.index);
  }

  lemma SharedWithAncestor(s: State, id: GraphId, rest: Heap, inputs: seq<Input>, k: nat, d: nat, i: nat)
    requires CanReplay(s, id, rest, inputs) && InPath(s.slots, CurPath(s), d, i)
    requires id in s.slots && id in s.unaliased && id in s.caches
    requires k < |s.recs[id].outs| && s.recs[id].outs[k].Tracked?
    requires StorageOf(s, id, k) == SlotAt(s.slots, CurPath(s), d, i).storage
    ensures s.recs[id].outs[k].alias.PriorOutput?
  {
    var node := CurPath(s)[d];
    assert SlotIn(s.slots, node, i);
    assert Tracks(s.heap, s.slots[node][i]);
    ParentPath(s, id, rest, inputs);
    assert node != id;
    RebuiltStorageSpec(s, id, rest, inputs, k);
    CachedSlot(s, id, k);
  }

  lemma RebuildHeld(s: State, id: GraphId, rest: Heap, inputs: seq<Input>, p: PathIndex)
    requires CanProbe(s, id, rest, inputs)
    requires LiveAt(RebuildHeap(s.recs[id], rest, inputs), s.slots, CurPath(s), p.depth, p.output)
    ensures Held(HeapWith(rest, ClearAt(inputs, s.recs[id].managed)), SlotAt(s.slots, CurPath(s), p.depth, p.output).storage)
  {
    var r := s.recs[id];
    var fewer := ClearAt(inputs, r.managed);
    var fewest := KeepStatic(fewer, r.staticIdxs);
    ClearedHeapFollows(rest, inputs, fewest, s.nextStorage);
    ClearedHeapFollows(rest, fewer, fewest, s.nextStorage);
    FollowsTracking(HeapWith(rest, fewest), s.heap, s.slots, s.nextStorage, s.nextStorage);
    LiveAtIsHeld(HeapWith(rest, fewest), s.slots, CurPath(s), p.depth, p.output);
  }

  lemma ReplayedPath(s: State, id: GraphId, rest: Heap, inputs: seq<Input>)
    requires CanProbe(s, id, rest, inputs)
    requires id in s.slots && id in s.unaliased && id in s.caches && |s.slots[id]| == |s.recs[id].outs|
    ensures var t := Replay(s, id, rest);
            CurPath(t) == CurPath(s) + [id] && AtGraphNode(t) && t.recs[t.current.value] == s.recs[id]
    ensures forall d: nat, i: nat :: d < |CurPath(s)| ==>
              && (InPath(Replay(s, id, rest).slots, CurPath(s) + [id], d, i) <==> InPath(s.slots, CurPath(s), d, i))
              && (InPath(s.slots, CurPath(s), d, i) ==>
                    SlotAt(Replay(s, id, rest).slots, CurPath(s) + [id], d, i) == SlotAt(s.slots, CurPath(s), d, i))
  {
    ParentPath(s, id, rest, inputs);
    var t := Replay(s, id, rest);
    forall d: nat | d < |CurPath(s)|
      ensures RowAt(t.slots, (CurPath(s) + [id])[d]) == RowAt(s.slots, CurPath(s)[d])
    {
      assert CurPath(s)[d] != id;
    }
  }

  lemma ReplayedLive(s: State, id: GraphId, rest: Heap, inputs: seq<Input>, d: nat, i: nat)
    requires CanReplay(s, id, rest, inputs)
    requires id in s.slots && id in s.unaliased && id in s.caches && |s.slots[id]| == |s.recs[id].outs|
    requires InPath(Replay(s, id, rest).slots, CurPath(s) + [id], d, i)
    requires Held(Replay(s, id, rest).heap, SlotAt(Replay(s, id, rest).slots, CurPath(s) + [id], d, i).storage)
    ensures At(s.recs[id].after, d, i)
  {
    hide Sound;
    hide Accepted;
    hide AliasedPriorsLive;
    ReplayedPath(s, id, rest, inputs);
    if d < |CurPath(s)| {
      ReplayedAncestor(s, id, rest, inputs, d, i);
    } else {
      ReplayRowAt(s, id, rest, i);
      OwnOutputsLive(s, id, i);
    }
  }

  lemma OwnOutputsLive(s: State, id: GraphId, i: nat)
    requires Sound(s) && id in s.recs && i < |s.recs[id].outs| && s.recs[id].outs[i].Tracked? && |s.recs[id].path| > 0
    ensures At(s.recs[id].after, |s.recs[id].path| - 1, i)
  {
    assert RecordOk(s.recs, id);
  }

  lemma ReplayLiveWithin(s: State, id: GraphId, rest: Heap, inputs: seq<Input>)
    requires CanReplay(s, id, rest, inputs)
    requires id in s.slots && id in s.unaliased && id in s.caches && |s.slots[id]| == |s.recs[id].outs|
    requires AllTracked(Replay(s, id, rest).heap, Replay(s, id, rest).slots)
    ensures LiveWithin(Replay(s, id, rest).heap, Replay(s, id, rest).slots, CurPath(s) + [id], s.recs[id].after)
  {
    var h, slots := Replay(s, id, rest).heap, Replay(s, id, rest).slots;
    forall d: nat, i: nat | LiveAt(h, slots, CurPath(s) + [id], d, i)
      ensures At(s.recs[id].after, d, i)
    {
      LiveAtIsHeld(h, slots, CurPath(s) + [id], d, i);
      ReplayedLive(s, id, rest, inputs, d, i);
    }
  }

  lemma ReplaySameStorage(s: State, id: GraphId, rest: Heap, inputs: seq<Input>)
    requires CanReplay(s, id, rest, inputs)
    requires id in s.slots && id in s.unaliased && id in s.caches && |s.slots[id]| == |s.recs[id].outs|
    ensures SameStorage(Replay(s, id, rest).slots, CurPath(s) + [id], s.recs[id].after)
  {
    var slots := Replay(s, id, rest).slots;
    var path := CurPath(s) + [id];
    forall d: nat, i: nat, e: nat, j: nat |
      At(s.recs[id].after, d, i) && At(s.recs[id].after, e, j) && InPath(slots, path, d, i) && InPath(slots, path, e, j)
      ensures SlotAt(slots, path, d, i).ptr == SlotAt(slots, path, e, j).ptr <==>
              SlotAt(slots, path, d, i).storage == SlotAt(slots, path, e, j).storage
    {
      ReplayedPair(s, id, rest, inputs, PathIndex(d, i), PathIndex(e, j));
    }
  }

  lemma ReplayedPair(s: State, id: GraphId, rest: Heap, inputs: seq<Input>, p: PathIndex, q: PathIndex)
    requires CanReplay(s, id, rest, inputs)
    requires id in s.slots && id in s.unaliased && id in s.caches && |s.slots[id]| == |s.recs[id].outs|
    requires At(s.recs[id].after, p.depth, p.output) && InPath(Replay(s, id, rest).slots, CurPath(s) + [id], p.depth, p.output)
    requires At(s.recs[id].after, q.depth, q.output) && InPath(Replay(s, id, rest).slots, CurPath(s) + [id], q.depth, q.output)
    ensures var v := SlotAt(Replay(s, id, rest).slots, CurPath(s) + [id], p.depth, p.output);
            var w := SlotAt(Replay(s, id, rest).slots, CurPath(s) + [id], q.depth, q.output);
            v.ptr == w.ptr <==> v.storage == w.storage
  {
    ReplayedPath(s, id, rest, inputs);
    if p.depth == |CurPath(s)| {
      ReplayRowAt(s, id, rest, p.output);
    }
    if q.depth == |CurPath(s)| {
      ReplayRowAt(s, id, rest, q.output);
    }
    if p.depth < |CurPath(s)| && q.depth < |CurPath(s)| {
      AncestorsShare(s, id, rest, inputs, p, q);
    } else if p.depth < |CurPath(s)| {
      ReplaySharesWithAncestors(s, id, rest, inputs, q.output, p);
    } else if q.depth < |CurPath(s)| {
      ReplaySharesWithAncestors(s, id, rest, inputs, p.output, q);
    } else {
      ReplayPreservesAliases(s, id, rest, inputs, p.output, q.output);
    }
  }

  /** What a replay leaves of the tables. */
  lemma ReplayFrame(s: State, id: GraphId, rest: Heap)
    requires Replayable(s, id)
    ensures var t := Replay(s, id, rest);
            && t.recs == s.recs && t.warm == s.warm && t.unaliased == s.unaliased && t.children == s.children
            && t.slots.Keys == s.slots.Keys && t.caches.Keys == s.caches.Keys
            && t.nextGraph == s.nextGraph && t.nextWarmup == s.nextWarmup
            && t.current == Some(id) && t.pathState == Executing
  {
    hide RebuiltRow;
    hide InitialCache;
    hide RowStorages;
    hide CachePlaces;
  }

  lemma ReplayTables(s: State, id: GraphId, rest: Heap, inputs: seq<Input>)
    requires CanProbe(s, id, rest, inputs) && Replayable(s, id)
    ensures var t := Replay(s, id, rest);
            IdsOk(t) && FlagsOk(t) && ChildrenOk(t)
  {
    ReplayFrame(s, id, rest);
    hide Replay;
    hide FlagsIn;
    hide ChildrenIn;
    hide NodesOk;
    hide TrackingOk;
    hide PathLiveOk;
    hide RecordsOk;
    hide CurrentOk;
  }

  lemma ReplayCurrent(s: State, id: GraphId, rest: Heap, inputs: seq<Input>)
    requires CanProbe(s, id, rest, inputs) && Replayable(s, id)
    ensures CurrentOk(Replay(s, id, rest))
  {
    ReplayFrame(s, id, rest);
    ReplayedPath(s, id, rest, inputs);
    ProbedRecord(s, id, rest, inputs);
    var t := Replay(s, id, rest);
    assert RecordsOk(s.recs) && IdsOk(s);
    hide Replay;
    hide CanProbe;
    hide IndicesOk;
    var p := CurPath(t);
    forall d | 0 <= d < |p|
      ensures p[d] in t.slots && PathOf(t, p[d]) == p[..d + 1]
    {
      assert p[d] in t.recs;
    }
  }

  /** Replaying an accepted child whose aliased priors can be reached keeps every invariant. */
  lemma ReplayValid(s: State, id: GraphId, rest: Heap, inputs: seq<Input>)
    requires CanReplay(s, id, rest, inputs)
    ensures id in s.slots && id in s.unaliased && id in s.caches && |s.slots[id]| == |s.recs[id].outs|
    ensures Valid(Replay(s, id, rest)) && CurPath(Replay(s, id, rest)) == CurPath(s) + [id]
  {
    ReplayNodesOk(s, id, rest);
    ReplayTrackingOk(s, id, rest, inputs);
    ReplayTables(s, id, rest, inputs);
    ReplayCurrent(s, id, rest, inputs);
    ReplayLiveWithin(s, id, rest, inputs);
    ReplaySameStorage(s, id, rest, inputs);
    ReplayedPath(s, id, rest, inputs);
  }

  // ---------------------------------------------------------------- what the caller holds

  /** After a replay every tracked output of the node is live: the caller holds it. */
  lemma ReplayedOutputsLive(s: State, id: GraphId, rest: Heap, inputs: seq<Input>, i: nat)
    requires CanReplay(s, id, rest, inputs) && i < |s.recs[id].outs| && s.recs[id].outs[i].Tracked?
    ensures Replayable(s, id)
    ensures var t := Replay(s, id, rest);
            CurPath(t) == CurPath(s) + [id] && LiveAt(t.heap, t.slots, CurPath(t), |CurPath(s)|, i)
  {
    ReplayDefined(s, id);
    ReplayValid(s, id, rest, inputs);
    OutputIsHeld(s, id, rest, inputs, i);
    ValidTracks(Replay(s, id, rest));
    hide Valid;
    hide CanReplay;
    var t := Replay(s, id, rest);
    assert CurPath(t)[|CurPath(s)|] == id;
    hide Replay;
    LiveAtIsHeld(t.heap, t.slots, CurPath(t), |CurPath(s)|, i);
  }

  lemma ValidTracks(s: State)
    requires Valid(s)
    ensures AllTracked(s.heap, s.slots)
  {
  }

  lemma OutputIsHeld(s: State, id: GraphId, rest: Heap, inputs: seq<Input>, i: nat)
    requires CanReplay(s, id, rest, inputs) && i < |s.recs[id].outs| && s.recs[id].outs[i].Tracked? && Replayable(s, id)
    ensures var t := Replay(s, id, rest);
            id in t.slots && i < |t.slots[id]| && t.slots[id][i].Some? && Held(t.heap, t.slots[id][i].value.storage)
  {
    TrackedSlot(s, id, rest, inputs, i);
    hide CanReplay;
    hide RebuiltStorage;
    var t := Replay(s, id, rest);
    ReplayedHeld(s, id, rest, t.slots[id][i].value.storage);
  }

  lemma TrackedSlot(s: State, id: GraphId, rest: Heap, inputs: seq<Input>, i: nat)
    requires CanReplay(s, id, rest, inputs) && i < |s.recs[id].outs| && s.recs[id].outs[i].Tracked? && Replayable(s, id)
    ensures s.slots[id][i].Some?
  {
    assert NodeOk(s, id);
  }

  /** Cached or not, every storage of the row is handed out. */
  lemma RowHandedOut(row: Row, flags: seq<bool>, x: StorageId)
    ensures x in RowStorages(row, flags, true) || x in RowStorages(row, flags, false) <==>
            exists i :: 0 <= i < |row| && row[i].Some? && row[i].value.storage == x
  {
    hide Flagged;
    if exists i :: 0 <= i < |row| && row[i].Some? && row[i].value.storage == x {
      var i :| 0 <= i < |row| && row[i].Some? && row[i].value.storage == x;
      if Flagged(flags, i) {
        assert x in RowStorages(row, flags, true);
      } else {
        assert x in RowStorages(row, flags, false);
      }
    }
  }

  lemma ReplayHeap(s: State, id: GraphId, rest: Heap)
    requires Replayable(s, id)
    ensures var t := Replay(s, id, rest);
            && t.heap.tensors == rest.tensors + RowStorages(t.slots[id], s.unaliased[id], true)
            && t.heap.views == rest.views + RowStorages(t.slots[id], s.unaliased[id], false)
  {
    hide RebuiltRow;
    hide InitialCache;
    hide CachePlaces;
    hide RowStorages;
  }

  /** After a replay the caller holds what it held outside the list and the node's own outputs,
      cached or not, and nothing else is held. */
  lemma ReplayedHeld(s: State, id: GraphId, rest: Heap, x: StorageId)
    requires Replayable(s, id)
    ensures var t := Replay(s, id, rest);
            Held(t.heap, x) <==>
            Held(rest, x) || exists i :: 0 <= i < |t.slots[id]| && t.slots[id][i].Some? && t.slots[id][i].value.storage == x
  {
    ReplayHeap(s, id, rest);
    RowHandedOut(Replay(s, id, rest).slots[id], s.unaliased[id], x);
    hide Replay;
    hide RowStorages;
  }
}
