/**
 Recording a function as a new graph node behind the current path.

 The recorded function itself is outside the model: what it leaves behind is a
 `ModelRun`, and `RecordingRun` states what a recording in the pool is taken to do.
 */
module Recordings {
  import opened Options
  import opened Storages
  import opened PathIndices
  import opened TreeState
  import opened PathOps

  /** A returned value: a device tensor, or anything else. */
  datatype RawOutput = RawScalar | RawTensor(storage: StorageId, ptr: Addr)

  /** What one run of a function left behind: the references held once it returned
      (its outputs included), the outputs, the addresses of its persistent static
      inputs and constants, the storages of its constants, and the pool addresses it
      was given while it ran. */
  datatype ModelRun = ModelRun(
    tensors: set<StorageId>,
    views: set<StorageId>,
    outs: seq<RawOutput>,
    persistent: set<Addr>,
    constants: set<StorageId>,
    scratch: set<Addr>,
    nextStorage: StorageId)

  function HeapAfter(s: State, run: ModelRun): Heap {
    Heap(run.tensors, run.views, s.heap.cached)
  }

  // ---------------------------------------------------------------- classifying outputs

  /** The first of the indices `from` on whose slot is live at this address. */
  function FirstLive(h: Heap, slots: Slots, path: seq<GraphId>, ix: seq<PathIndex>, from: nat, ptr: Addr): Option<PathIndex>
    requires from <= |ix|
    decreases |ix| - from
  {
    if from == |ix| then None
    else if LiveAt(h, slots, path, ix[from].depth, ix[from].output) &&
            SlotAt(slots, path, ix[from].depth, ix[from].output).ptr == ptr then Some(ix[from])
    else FirstLive(h, slots, path, ix, from + 1, ptr)
  }

  /** The live output of the path at this address, in path order. */
  function AliasOfLive(h: Heap, slots: Slots, path: seq<GraphId>, ptr: Addr): Option<PathIndex> {
    FirstLive(h, slots, path, AllIndices(slots, path), 0, ptr)
  }

  /** The output among the first `n` that introduced this address. */
  function FirstNew(outs: seq<Output>, n: nat, ptr: Addr): Option<nat>
    requires n <= |outs|
  {
    if n == 0 then None
    else if outs[n - 1] == Tracked(ptr, Unaliased) then Some(n - 1)
    else FirstNew(outs, n - 1, ptr)
  }

  predicate IsStatic(ptr: Addr, persistent: set<Addr>) {
    ptr == 0 || ptr in persistent
  }

  /** The first `n` outputs, each classified by what exists before it. */
  function Classify(h: Heap, slots: Slots, path: seq<GraphId>, run: ModelRun, n: nat): (r: seq<Output>)
    requires n <= |run.outs|
    ensures |r| == n
  {
    if n == 0 then []
    else
      var prev := Classify(h, slots, path, run, n - 1);
      prev + [ClassifyOne(h, slots, path, run.persistent, prev, run.outs[n - 1])]
  }

  function ClassifyOne(h: Heap, slots: Slots, path: seq<GraphId>, persistent: set<Addr>, prev: seq<Output>, o: RawOutput): Output {
    if o.RawScalar? then NonTensor
    else if IsStatic(o.ptr, persistent) then StaticTensor
    else match AliasOfLive(h, slots, path, o.ptr)
      case Some(p) => Tracked(o.ptr, PriorOutput(p))
      case None =>
        match FirstNew(prev, |prev|, o.ptr)
        case Some(j) => Tracked(o.ptr, NewOutput(j))
        case None => Tracked(o.ptr, Unaliased)
  }

  /** The weak references of a new node. */
  function OwnRow(outs: seq<Output>, raws: seq<RawOutput>): (r: Row)
    requires |outs| == |raws|
  {
    seq(|outs|, i requires 0 <= i < |outs| =>
      if outs[i].Tracked? && raws[i].RawTensor? then Some(WeakRef(raws[i].storage, raws[i].ptr, false)) else None)
  }

  /** Output `i` introduced its address and no later output of the node aliases it. */
  predicate OwnFlag(outs: seq<Output>, i: nat) {
    && i < |outs| && outs[i].Tracked? && outs[i].alias.Unaliased?
    && forall j :: 0 <= j < |outs| ==> !(outs[j].Tracked? && outs[j].alias == NewOutput(i))
  }

  function OwnFlags(outs: seq<Output>): (r: seq<bool>)
    ensures |r| == |outs|
  {
    seq(|outs|, i requires 0 <= i < |outs| => OwnFlag(outs, i))
  }

  /** Some output aliases output `i` of node `id`, found at its depth on the path. */
  predicate AliasesPrior(path: seq<GraphId>, outs: seq<Output>, id: GraphId, i: nat) {
    exists j :: 0 <= j < |outs| && outs[j].Tracked? && outs[j].alias.PriorOutput? &&
      outs[j].alias.index.depth < |path| && path[outs[j].alias.index.depth] == id && outs[j].alias.index.output == i
  }

  /** Ancestors stop treating the aliased outputs as unaliased in all paths. */
  function MarkAliased(unaliased: map<GraphId, seq<bool>>, path: seq<GraphId>, outs: seq<Output>): map<GraphId, seq<bool>> {
    map id | id in unaliased ::
      seq(|unaliased[id]|, i requires 0 <= i < |unaliased[id]| => unaliased[id][i] && !AliasesPrior(path, outs, id, i))
  }

  /** The blocks of the new storages among the first `n` outputs join the pool. */
  function Allocate(pool: Pool, outs: seq<Output>, raws: seq<RawOutput>, n: nat): Pool
    requires n <= |outs| == |raws|
  {
    if n == 0 then pool
    else
      var q := Allocate(pool, outs, raws, n - 1);
      if outs[n - 1].Tracked? && outs[n - 1].alias.Unaliased? && raws[n - 1].RawTensor?
      then q[outs[n - 1].ptr := Some(raws[n - 1].storage)] else q
  }

  // ---------------------------------------------------------------- inputs

  /** An input is the output of some node of the path, whether or not still live. */
  predicate IsRecordedTensor(slots: Slots, path: seq<GraphId>, t: Input) {
    t.Tensor? && exists d, i | 0 <= d < |path| && 0 <= i < |RowAt(slots, path[d])| ::
      InPath(slots, path, d, i) && SlotAt(slots, path, d, i).ptr == t.base
  }

  /** Positions of the first `n` inputs that the tree manages. */
  function ManagedIdxs(slots: Slots, path: seq<GraphId>, inputs: seq<Input>, n: nat): seq<nat>
    requires n <= |inputs|
  {
    if n == 0 then []
    else ManagedIdxs(slots, path, inputs, n - 1) + (if IsRecordedTensor(slots, path, inputs[n - 1]) then [n - 1] else [])
  }

  /** The first `n` positions of a list without repetitions, in order. */
  function Distinct(a: seq<nat>, n: nat): seq<nat>
    requires n <= |a|
  {
    if n == 0 then []
    else
      var r := Distinct(a, n - 1);
      if a[n - 1] in r then r else r + [a[n - 1]]
  }

  function StaticPtrs(inputs: seq<Input>, idxs: seq<nat>): (r: seq<Option<Addr>>) {
    seq(|inputs|, i requires 0 <= i < |inputs| =>
      if inputs[i].Tensor? && i in idxs then Some(inputs[i].data) else None)
  }

  // ---------------------------------------------------------------- the step

  /** The generation a call belongs to: the user's step count once they mark steps. */
  function CurrGeneration(s: State): int {
    if s.markStep != 0 then s.markStep else s.generation
  }

  function RecordPath(s: State): seq<GraphId> {
    CurPath(s) + [s.nextGraph]
  }

  function RecordBefore(s: State): Liveness {
    if s.current.None? then [] else LivenessOf(s.heap, s.slots, RecordPath(s))
  }

  function RecordDeadBefore(s: State): seq<PathIndex> {
    if AtGraphNode(s) then DifferentIndices(s.recs[s.current.value].after, RecordBefore(s)) else []
  }

  function RecordedOuts(s: State, run: ModelRun): (r: seq<Output>)
    ensures |r| == |run.outs|
  {
    Classify(HeapAfter(s, run), s.slots, CurPath(s), run, |run.outs|)
  }

  function RecordedSlots(s: State, run: ModelRun): Slots {
    s.slots[s.nextGraph := OwnRow(RecordedOuts(s, run), run.outs)]
  }

  function RecordedAfter(s: State, run: ModelRun): Liveness {
    LivenessOf(HeapAfter(s, run), RecordedSlots(s, run), RecordPath(s))
  }

  function RecordedPool(s: State, run: ModelRun): Pool {
    Allocate(FreeDead(s.pool, HeapAfter(s, run)), RecordedOuts(s, run), run.outs, |run.outs|)
  }

  function NewRecord(s: State, fn: FunctionId, statics: seq<nat>, inputs: seq<Input>, run: ModelRun): GraphRecord {
    var managed := ManagedIdxs(s.slots, CurPath(s), inputs, |inputs|);
    var idxs := Distinct(statics + managed, |statics + managed|);
    var after := RecordedAfter(s, run);
    GraphRecord(
      fn, RecordPath(s), RecordedOuts(s, run), RecordBefore(s), after,
      RecordDeadBefore(s),
      DifferentIndices(RecordBefore(s), LivenessOf(HeapAfter(s, run), s.slots, RecordPath(s))),
      TrueIndices(after, |after|),
      RecordedPool(s, run).Keys, run.scratch, managed, idxs, StaticPtrs(inputs, idxs))
  }

  function ChildrenAt(children: map<Site, seq<GraphId>>, k: Site): seq<GraphId> {
    if k in children then children[k] else []
  }

  /** The new node is added below the current one, or as a root, and becomes current. */
  function Record(s: State, fn: FunctionId, statics: seq<nat>, inputs: seq<Input>, run: ModelRun): State {
    var id := s.nextGraph;
    var site := Site(s.current, fn);
    var outs := RecordedOuts(s, run);
    s.(recs := s.recs[id := NewRecord(s, fn, statics, inputs, run)],
       slots := RecordedSlots(s, run),
       unaliased := MarkAliased(s.unaliased, CurPath(s), outs)[id := OwnFlags(outs)],
       caches := s.caches[id := []],
       children := s.children[site := ChildrenAt(s.children, site) + [id]],
       current := Some(id), pathState := Recording, currentGen := CurrGeneration(s),
       nextGraph := id + 1,
       heap := HeapAfter(s, run), pool := RecordedPool(s, run), nextStorage := run.nextStorage)
  }

  // ---------------------------------------------------------------- what a recording does

  /** Output `i` is a storage of the path that is live when the run ends. */
  ghost predicate OutputOnPath(s: State, run: ModelRun, i: nat)
    requires i < |run.outs| && run.outs[i].RawTensor?
  {
    exists d: nat, j: nat :: LiveAt(HeapAfter(s, run), s.slots, CurPath(s), d, j) &&
      SlotAt(s.slots, CurPath(s), d, j).storage == run.outs[i].storage &&
      SlotAt(s.slots, CurPath(s), d, j).ptr == run.outs[i].ptr
  }

  /** Output `i` is a storage the run allocated, at an address that was not
      allocated all through the run. */
  ghost predicate OutputIsNew(s: State, run: ModelRun, i: nat)
    requires i < |run.outs| && run.outs[i].RawTensor?
  {
    && s.nextStorage <= run.outs[i].storage
    && run.outs[i].ptr !in FreeDead(s.pool, HeapAfter(s, run))
    && run.outs[i].ptr in run.scratch
  }

  /** What is taken for granted of code that runs in the pool: it only keeps what it
      was given or made; its outputs are held; a pool output is either a live storage
      of the path or new memory; new storages and new addresses correspond; and it is
      never given a block that stays allocated all through. */
  ghost predicate PoolRun(s: State, run: ModelRun) {
    && Follows(HeapAfter(s, run), s.heap, s.nextStorage, run.nextStorage)
    && (forall i: nat :: i < |run.outs| && run.outs[i].RawTensor? ==> Held(HeapAfter(s, run), run.outs[i].storage))
    && (forall i: nat, j: nat | i < |run.outs| && j < |run.outs| && run.outs[i].RawTensor? && run.outs[j].RawTensor? ::
          OutputIsNew(s, run, i) && OutputIsNew(s, run, j) ==>
            (run.outs[i].ptr == run.outs[j].ptr <==> run.outs[i].storage == run.outs[j].storage))
    && run.scratch !! FreeDead(s.pool, HeapAfter(s, run)).Keys
  }

  ghost predicate RecordingRun(s: State, run: ModelRun) {
    && PoolRun(s, run)
    && (forall i: nat :: i < |run.outs| && run.outs[i].RawTensor? && !IsStatic(run.outs[i].ptr, run.persistent) ==>
          OutputOnPath(s, run, i) || OutputIsNew(s, run, i))
  }
}
