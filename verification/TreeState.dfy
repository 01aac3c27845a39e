/**
 The state of the graph tree manager and its invariant.

 Node objects live in tables keyed by their graph id: what is written once when
 a node is recorded is a `GraphRecord`, what later calls change (weak references,
 cached tensors, aliasing flags) sits in tables of its own. A node's list of
 weak-reference lists along its path is its `path` read through the `slots` table.
 */
module TreeState {
  import opened Options
  import opened Storages
  import opened PathIndices

  type GraphId = int
  type FunctionId = nat
  type Slots = map<GraphId, Row>
  type Pool = map<Addr, Option<StorageId>>

  datatype ExecutionState = NoPath | WarmingUp | Recording | Executing

  /** How an output's storage relates to storages that exist when it is rebuilt. */
  datatype Alias = Unaliased | PriorOutput(index: PathIndex) | NewOutput(position: nat)

  /** One recorded output: not a tensor, a tensor over a persistent static input
      (or an empty one), or a tensor of the pool whose lifetime is tracked. */
  datatype Output = NonTensor | StaticTensor | Tracked(ptr: Addr, alias: Alias)

  /** A call argument: not a tensor, a tensor (its storage, the storage's address and
      its own address), or an entry the manager has already taken out of the list. */
  datatype Input = Scalar | Tensor(storage: StorageId, base: Addr, data: Addr) | Cleared

  /** What a graph node remembers of its recording. `path` ends with the node itself;
      `scratch` are the pool addresses the recorded kernels were given while recording. */
  datatype GraphRecord = GraphRecord(
    fn: FunctionId,
    path: seq<GraphId>,
    outs: seq<Output>,
    before: Liveness,
    after: Liveness,
    deadBefore: seq<PathIndex>,
    deadAfter: seq<PathIndex>,
    liveAfter: seq<PathIndex>,
    checkpoint: set<Addr>,
    scratch: set<Addr>,
    managed: seq<nat>,
    staticIdxs: seq<nat>,
    staticPtrs: seq<Option<Addr>>)

  datatype WarmupRecord = WarmupRecord(fn: FunctionId, path: seq<GraphId>)

  /** A (node id, function) pair: the key of children, mutation hints and re-record counts. */
  datatype Site = Site(node: Option<GraphId>, fn: FunctionId)

  datatype State = State(
    recs: map<GraphId, GraphRecord>,
    warm: map<GraphId, WarmupRecord>,
    slots: Slots,
    unaliased: map<GraphId, seq<bool>>,
    caches: map<GraphId, seq<Option<StorageId>>>,
    children: map<Site, seq<GraphId>>,
    current: Option<GraphId>,
    pathState: ExecutionState,
    currentGen: int,
    pendingBackward: bool,
    warmedUp: set<FunctionId>,
    hints: map<Site, bool>,
    rerecords: map<Site, nat>,
    nextGraph: GraphId,
    nextWarmup: GraphId,
    heap: Heap,
    pool: Pool,
    nextStorage: StorageId,
    generation: int,
    markStep: int)

  // ---------------------------------------------------------------- paths

  function PathOf(s: State, id: GraphId): seq<GraphId> {
    if id in s.recs then s.recs[id].path
    else if id in s.warm then s.warm[id].path
    else []
  }

  /** The nodes from the root to the current node. */
  function CurPath(s: State): seq<GraphId> {
    if s.current.None? then [] else PathOf(s, s.current.value)
  }

  predicate AtGraphNode(s: State) {
    s.current.Some? && s.current.value in s.recs
  }

  function RowAt(slots: Slots, id: GraphId): Row {
    if id in slots then slots[id] else []
  }

  predicate InPath(slots: Slots, path: seq<GraphId>, d: nat, i: nat) {
    d < |path| && i < |RowAt(slots, path[d])| && RowAt(slots, path[d])[i].Some?
  }

  function SlotAt(slots: Slots, path: seq<GraphId>, d: nat, i: nat): WeakRef
    requires InPath(slots, path, d, i)
  {
    RowAt(slots, path[d])[i].value
  }

  predicate LiveAt(h: Heap, slots: Slots, path: seq<GraphId>, d: nat, i: nat) {
    InPath(slots, path, d, i) && IsLive(h, Some(SlotAt(slots, path, d, i)))
  }

  function LiveRow(h: Heap, row: Row): (r: seq<bool>) {
    seq(|row|, i requires 0 <= i < |row| => IsLive(h, row[i]))
  }

  /** The liveness table of a path. */
  function LivenessOf(h: Heap, slots: Slots, path: seq<GraphId>): (r: Liveness) {
    seq(|path|, d requires 0 <= d < |path| => LiveRow(h, RowAt(slots, path[d])))
  }

  lemma LivenessOfAt(h: Heap, slots: Slots, path: seq<GraphId>, d: nat, i: nat)
    ensures At(LivenessOf(h, slots, path), d, i) <==> LiveAt(h, slots, path, d, i)
  {
  }

  // ---------------------------------------------------------- invariants: tables

  predicate SlotIn(slots: Slots, id: GraphId, i: nat) {
    id in slots && i < |slots[id]| && slots[id][i].Some?
  }

  /** Graph ids count up from zero, warmup ids count down from minus one. */
  ghost predicate IdsOk(s: State) {
    && 0 <= s.nextGraph && s.nextWarmup < 0
    && (forall id :: id in s.recs ==> 0 <= id < s.nextGraph)
    && (forall id :: id in s.warm ==> s.nextWarmup < id < 0)
    && (forall id :: id in s.slots ==> s.nextWarmup < id < s.nextGraph)
    && (forall id :: id in s.recs ==> id in s.slots && id in s.unaliased && id in s.caches)
    && (forall id :: id in s.warm ==> id in s.slots)
    && (forall id :: id in s.caches ==> id in s.recs)
  }

  ghost predicate RowMatches(outs: seq<Output>, row: Row) {
    && |row| == |outs|
    && forall i :: 0 <= i < |outs| ==>
         && (row[i].Some? <==> outs[i].Tracked?)
         && (row[i].Some? ==> row[i].value.ptr == outs[i].ptr)
  }

  ghost predicate FlagsMatch(outs: seq<Output>, flags: seq<bool>) {
    && |flags| == |outs|
    && forall i :: 0 <= i < |outs| && flags[i] ==> outs[i].Tracked? && outs[i].alias.Unaliased?
  }

  /** The cache is empty, or holds exactly the outputs that are unaliased in all
      paths, and the extra-reference check is installed exactly on those. */
  ghost predicate CacheMatches(flags: seq<bool>, row: Row, cache: seq<Option<StorageId>>) {
    && (cache == [] || |cache| == |row| == |flags|)
    && (cache != [] ==> forall i :: 0 <= i < |cache| ==> (cache[i].Some? <==> flags[i]))
    && (forall i :: 0 <= i < |row| && row[i].Some? ==>
          (row[i].value.extra <==> cache != [] && cache[i].Some?))
    && (cache != [] ==> forall i :: 0 <= i < |cache| && cache[i].Some? ==>
          row[i].Some? && row[i].value.storage == cache[i].value)
  }

  ghost predicate NodeOk(s: State, id: GraphId)
    requires id in s.recs
  {
    && id in s.slots && id in s.unaliased && id in s.caches
    && RowMatches(s.recs[id].outs, s.slots[id])
    && FlagsMatch(s.recs[id].outs, s.unaliased[id])
    && CacheMatches(s.unaliased[id], s.slots[id], s.caches[id])
  }

  ghost predicate NodesOk(s: State) {
    forall id {:trigger NodeOk(s, id)} :: id in s.recs ==> NodeOk(s, id)
  }

  ghost predicate AllTracked(h: Heap, slots: Slots) {
    forall id, i: nat :: SlotIn(slots, id, i) ==> Tracks(h, slots[id][i])
  }

  lemma LiveAtIsHeld(h: Heap, slots: Slots, path: seq<GraphId>, d: nat, i: nat)
    requires AllTracked(h, slots) && InPath(slots, path, d, i)
    ensures LiveAt(h, slots, path, d, i) <==> Held(h, SlotAt(slots, path, d, i).storage)
  {
    assert SlotIn(slots, path[d], i);
    LiveIffHeld(h, SlotAt(slots, path, d, i));
  }

  /** A cached tensor is registered under the one slot that tracks it. */
  ghost predicate ExtraPlaced(h: Heap, slots: Slots) {
    forall id, i: nat :: SlotIn(slots, id, i) && slots[id][i].value.extra ==>
      var x := slots[id][i].value.storage;
      x in h.cached && h.cached[x] == Place(id, i)
  }

  ghost predicate StoragesBelow(h: Heap, slots: Slots, n: StorageId) {
    && (forall x :: x in h.tensors || x in h.views || x in h.cached ==> x < n)
    && (forall id, i: nat :: SlotIn(slots, id, i) ==> slots[id][i].value.storage < n)
  }

  ghost predicate TrackingOk(s: State) {
    && AllTracked(s.heap, s.slots)
    && ExtraPlaced(s.heap, s.slots)
    && StoragesBelow(s.heap, s.slots, s.nextStorage)
  }

  // ---------------------------------------------------------- invariants: recordings

  ghost predicate PathOk(recs: map<GraphId, GraphRecord>, id: GraphId)
    requires id in recs
  {
    var p := recs[id].path;
    && |p| > 0 && p[|p| - 1] == id
    && forall d :: 0 <= d < |p| ==> p[d] in recs && recs[p[d]].path == p[..d + 1]
  }

  predicate TrackedAt(recs: map<GraphId, GraphRecord>, path: seq<GraphId>, d: nat, i: nat) {
    d < |path| && path[d] in recs && i < |recs[path[d]].outs| && recs[path[d]].outs[i].Tracked?
  }

  function PtrAt(recs: map<GraphId, GraphRecord>, path: seq<GraphId>, d: nat, i: nat): Addr
    requires TrackedAt(recs, path, d, i)
  {
    recs[path[d]].outs[i].ptr
  }

  /** The liveness tables of a recording: everything live at its end was live at
      its start, everything live at its start was live at the end of its parent's,
      and of its own outputs exactly the tracked ones are live at its end. */
  ghost predicate TablesOk(recs: map<GraphId, GraphRecord>, id: GraphId)
    requires id in recs && PathOk(recs, id)
  {
    var r := recs[id];
    var k := |r.path| - 1;
    && |r.after| == k + 1
    && (forall d :: 0 <= d <= k ==> |r.after[d]| == |recs[r.path[d]].outs|)
    && (forall d: nat, i: nat :: At(r.after, d, i) ==> TrackedAt(recs, r.path, d, i))
    && (forall i: nat :: i < |r.outs| && r.outs[i].Tracked? ==> At(r.after, k, i))
    && (forall d: nat, i: nat :: At(r.after, d, i) && d < k ==> At(r.before, d, i))
    && (k > 0 ==> forall d: nat, i: nat :: At(r.before, d, i) ==> At(recs[r.path[k - 1]].after, d, i))
  }

  /** The three index lists say what they are named for. */
  ghost predicate IndicesOk(recs: map<GraphId, GraphRecord>, id: GraphId)
    requires id in recs && PathOk(recs, id)
  {
    var r := recs[id];
    var k := |r.path| - 1;
    && (forall p: PathIndex :: p in r.deadBefore <==>
          k > 0 && At(recs[r.path[k - 1]].after, p.depth, p.output) && !At(r.before, p.depth, p.output))
    && (forall p: PathIndex :: p in r.deadAfter <==>
          At(r.before, p.depth, p.output) && !At(r.after, p.depth, p.output))
    && (forall p: PathIndex :: p in r.liveAfter <==> At(r.after, p.depth, p.output))
  }

  /** Output `i` of a recording is classified by the storages live at its end. */
  ghost predicate AliasOk(recs: map<GraphId, GraphRecord>, id: GraphId, i: nat)
    requires id in recs && PathOk(recs, id) && i < |recs[id].outs| && recs[id].outs[i].Tracked?
  {
    var r := recs[id];
    var k := |r.path| - 1;
    var ptr := r.outs[i].ptr;
    match r.outs[i].alias
    case PriorOutput(p) =>
      p.depth < k && At(r.after, p.depth, p.output) && TrackedAt(recs, r.path, p.depth, p.output) &&
      PtrAt(recs, r.path, p.depth, p.output) == ptr
    case NewOutput(j) =>
      j < i && r.outs[j] == Tracked(ptr, Unaliased)
    case Unaliased =>
      && (forall d: nat, j: nat :: d < k && At(r.after, d, j) && TrackedAt(recs, r.path, d, j) ==>
            PtrAt(recs, r.path, d, j) != ptr)
      && (forall j :: 0 <= j < i && r.outs[j].Tracked? ==> r.outs[j].ptr != ptr)
  }

  /** The saved allocator state is exactly the addresses of the storages live at
      the end of the recording, and the kernels were never given the address of
      an ancestor's storage that lived through it. */
  ghost predicate MemoryOk(recs: map<GraphId, GraphRecord>, id: GraphId)
    requires id in recs && PathOk(recs, id)
  {
    var r := recs[id];
    var k := |r.path| - 1;
    && (forall a :: a in r.checkpoint ==>
          exists d: nat, i: nat :: At(r.after, d, i) && TrackedAt(recs, r.path, d, i) && PtrAt(recs, r.path, d, i) == a)
    && (forall d: nat, i: nat :: At(r.after, d, i) && TrackedAt(recs, r.path, d, i) ==>
          PtrAt(recs, r.path, d, i) in r.checkpoint)
    && (forall d: nat, i: nat :: d < k && At(r.after, d, i) && TrackedAt(recs, r.path, d, i) ==>
          PtrAt(recs, r.path, d, i) !in r.scratch)
    && (forall i: nat :: i < |r.outs| && r.outs[i].Tracked? && !r.outs[i].alias.PriorOutput? ==>
          r.outs[i].ptr in r.scratch)
  }

  ghost predicate RecordOk(recs: map<GraphId, GraphRecord>, id: GraphId)
    requires id in recs
  {
    && PathOk(recs, id)
    && TablesOk(recs, id)
    && IndicesOk(recs, id)
    && (forall i: nat :: i < |recs[id].outs| && recs[id].outs[i].Tracked? ==> AliasOk(recs, id, i))
    && MemoryOk(recs, id)
  }

  ghost predicate RecordsOk(recs: map<GraphId, GraphRecord>) {
    forall id {:trigger RecordOk(recs, id)} :: id in recs ==> RecordOk(recs, id)
  }

  predicate FlagAt(unaliased: map<GraphId, seq<bool>>, id: GraphId, i: nat) {
    id in unaliased && i < |unaliased[id]| && unaliased[id][i]
  }

  /** An output that another output aliases is never cached. */
  ghost predicate FlagsIn(recs: map<GraphId, GraphRecord>, unaliased: map<GraphId, seq<bool>>) {
    && (forall id, i: nat ::
          id in recs && i < |recs[id].outs| && recs[id].outs[i].Tracked? && recs[id].outs[i].alias.PriorOutput? ==>
          var p := recs[id].outs[i].alias.index;
          p.depth < |recs[id].path| && !FlagAt(unaliased, recs[id].path[p.depth], p.output))
    && (forall id, i: nat ::
          id in recs && i < |recs[id].outs| && recs[id].outs[i].Tracked? && recs[id].outs[i].alias.NewOutput? ==>
          !FlagAt(unaliased, id, recs[id].outs[i].alias.position))
  }

  ghost predicate FlagsOk(s: State) {
    FlagsIn(s.recs, s.unaliased)
  }

  /** The children listed for a site are recordings of its function behind its node. */
  ghost predicate ChildrenIn(recs: map<GraphId, GraphRecord>, children: map<Site, seq<GraphId>>) {
    forall k, j: nat :: k in children && j < |children[k]| ==>
      var c := children[k][j];
      && c in recs && recs[c].fn == k.fn
      && (k.node.None? ==> recs[c].path == [c])
      && (k.node.Some? ==> k.node.value in recs && recs[c].path == recs[k.node.value].path + [c])
  }

  ghost predicate ChildrenOk(s: State) {
    ChildrenIn(s.recs, s.children)
  }

  // ---------------------------------------------------------- invariants: current path

  /** The state names the kind of the current node, and the path is a path. */
  ghost predicate CurrentOk(s: State) {
    && (s.current.None? <==> s.pathState == NoPath)
    && (s.pathState in {Recording, Executing} ==> AtGraphNode(s))
    && (s.pathState == WarmingUp ==> s.current.value in s.warm && s.current.value !in s.recs)
    && (s.current.Some? ==> |CurPath(s)| > 0 && CurPath(s)[|CurPath(s)| - 1] == s.current.value)
    && (forall d :: 0 <= d < |CurPath(s)| ==>
          CurPath(s)[d] in s.slots && PathOf(s, CurPath(s)[d]) == CurPath(s)[..d + 1])
  }

  ghost predicate LiveWithin(h: Heap, slots: Slots, path: seq<GraphId>, bits: Liveness) {
    forall d: nat, i: nat :: LiveAt(h, slots, path, d, i) ==> At(bits, d, i)
  }

  /** Slots of `bits` have the same address exactly when they have the same storage. */
  ghost predicate SameStorage(slots: Slots, path: seq<GraphId>, bits: Liveness) {
    forall d: nat, i: nat, e: nat, j: nat ::
      At(bits, d, i) && At(bits, e, j) && InPath(slots, path, d, i) && InPath(slots, path, e, j) ==>
      (SlotAt(slots, path, d, i).ptr == SlotAt(slots, path, e, j).ptr <==>
       SlotAt(slots, path, d, i).storage == SlotAt(slots, path, e, j).storage)
  }

  /** Along a graph path, nothing is live that was dead when its last node was
      recorded, and storages are shared as they were then. */
  ghost predicate PathLiveOk(s: State) {
    AtGraphNode(s) ==>
      && LiveWithin(s.heap, s.slots, CurPath(s), s.recs[s.current.value].after)
      && SameStorage(s.slots, CurPath(s), s.recs[s.current.value].after)
  }

  /** Some live slot of the path has this address. */
  ghost predicate LiveAddr(h: Heap, slots: Slots, path: seq<GraphId>, a: Addr) {
    exists d: nat, i: nat :: LiveAt(h, slots, path, d, i) && SlotAt(slots, path, d, i).ptr == a
  }

  /** Some live slot of the path is this weak reference. */
  ghost predicate LiveRef(h: Heap, slots: Slots, path: seq<GraphId>, w: WeakRef) {
    exists d: nat, i: nat :: LiveAt(h, slots, path, d, i) && SlotAt(slots, path, d, i) == w
  }

  /** The allocated addresses are exactly those of the live storages of the path,
      each owned by its storage. */
  ghost predicate PoolExact(pool: Pool, h: Heap, slots: Slots, path: seq<GraphId>) {
    && (forall d: nat, i: nat :: LiveAt(h, slots, path, d, i) ==>
          var w := SlotAt(slots, path, d, i);
          w.ptr in pool && pool[w.ptr] == Some(w.storage))
    && (forall a :: a in pool ==> LiveAddr(h, slots, path, a))
  }

  /** No slot of the path carries an extra-reference check. */
  ghost predicate PathPlain(slots: Slots, path: seq<GraphId>) {
    forall d: nat, i: nat :: InPath(slots, path, d, i) ==> !SlotAt(slots, path, d, i).extra
  }

  /** No node of the path holds a cached tensor. */
  ghost predicate PathUncached(s: State) {
    && PathPlain(s.slots, CurPath(s))
    && forall d :: 0 <= d < |CurPath(s)| && CurPath(s)[d] in s.caches ==> s.caches[CurPath(s)[d]] == []
  }

  /** The allocator reflects the path, so that the pool may be allocated from. */
  ghost predicate Ready(s: State) {
    PoolExact(s.pool, s.heap, s.slots, CurPath(s)) && PathUncached(s)
  }

  ghost predicate PoolOk(s: State) {
    if s.pathState in {Recording, WarmingUp} then Ready(s) else s.pool == map[]
  }

  /** Everything but the allocator. */
  ghost predicate Sound(s: State) {
    && IdsOk(s) && NodesOk(s) && TrackingOk(s)
    && RecordsOk(s.recs) && FlagsOk(s) && ChildrenOk(s)
    && CurrentOk(s) && PathLiveOk(s)
  }

  ghost predicate Valid(s: State) {
    Sound(s) && PoolOk(s)
  }

  /** The invariant reads neither the allocator nor the bookkeeping of calls. */
  predicate SameTables(s: State, t: State) {
    && s.recs == t.recs && s.warm == t.warm && s.slots == t.slots
    && s.unaliased == t.unaliased && s.caches == t.caches && s.children == t.children
    && s.nextGraph == t.nextGraph && s.nextWarmup == t.nextWarmup
    && s.heap == t.heap && s.nextStorage == t.nextStorage
  }

  lemma TablesFrame(s: State, t: State)
    requires SameTables(s, t) && IdsOk(s) && NodesOk(s) && TrackingOk(s) && FlagsOk(s) && ChildrenOk(s)
    ensures IdsOk(t) && NodesOk(t) && TrackingOk(t) && FlagsOk(t) && ChildrenOk(t)
  {
    hide FlagsIn;
    hide ChildrenIn;
    NodesFrame(s, t);
    hide NodesOk;
  }

  lemma NodesFrame(s: State, t: State)
    requires SameTables(s, t) && NodesOk(s)
    ensures NodesOk(t)
  {
    forall id | id in t.recs
      ensures NodeOk(t, id)
    {
      assert NodeOk(s, id);
    }
  }

  lemma CurrentFrame(s: State, t: State)
    requires SameTables(s, t) && s.current == t.current && s.pathState == t.pathState
    requires CurrentOk(s) && PathLiveOk(s)
    ensures CurPath(t) == CurPath(s) && CurrentOk(t) && PathLiveOk(t)
  {
    assert forall id :: PathOf(t, id) == PathOf(s, id);
  }

  lemma SoundFrame(s: State, t: State)
    requires Sound(s) && SameTables(s, t) && s.current == t.current && s.pathState == t.pathState
    ensures Sound(t) && CurPath(t) == CurPath(s)
  {
    TablesFrame(s, t);
    CurrentFrame(s, t);
  }

  lemma ValidFrame(s: State, t: State)
    requires Valid(s) && SameTables(s, t) && s.current == t.current && s.pathState == t.pathState && s.pool == t.pool
    ensures Valid(t) && CurPath(t) == CurPath(s)
  {
    SoundFrame(s, t);
  }

  const Initial: State := State(
    map[], map[], map[], map[], map[], map[], None, NoPath, -1, false, {}, map[], map[],
    0, -1, Heap({}, {}, map[]), map[], 0, 0, 0)

  lemma InitialIsValid()
    ensures Valid(Initial)
  {
  }
}
