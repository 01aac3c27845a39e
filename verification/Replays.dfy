/**
 Replaying a recorded node: the test whether a child may be replayed now, and
 what rebuilding its outputs does to the weak references and the caches.
 */
module Replays {
  import opened Options
  import opened Storages
  import opened PathIndices
  import opened TreeState
  import opened PathOps
  import opened Recordings

  // ---------------------------------------------------------------- the input list

  function InputStorages(inputs: seq<Input>): set<StorageId> {
    set i | 0 <= i < |inputs| && inputs[i].Tensor? :: inputs[i].storage
  }

  /** The references held while the list exists, given those held outside it. */
  function HeapWith(rest: Heap, inputs: seq<Input>): Heap {
    rest.(views := rest.views + InputStorages(inputs))
  }

  function ClearAt(inputs: seq<Input>, idxs: seq<nat>): (r: seq<Input>) {
    seq(|inputs|, i requires 0 <= i < |inputs| => if i in idxs then Cleared else inputs[i])
  }

  /** Only the static inputs are left once the others have been copied. */
  function KeepStatic(inputs: seq<Input>, statics: seq<nat>): (r: seq<Input>) {
    seq(|inputs|, i requires 0 <= i < |inputs| => if i in statics || !inputs[i].Tensor? then inputs[i] else Cleared)
  }

  /** The tensors at the given positions are where they were when recorded. */
  predicate PtrsEqual(inputs: seq<Input>, ptrs: seq<Option<Addr>>, idxs: seq<nat>) {
    forall k :: 0 <= k < |idxs| ==>
      var i := idxs[k];
      i < |inputs| && i < |ptrs| && inputs[i].Tensor? && ptrs[i] == Some(inputs[i].data)
  }

  // ---------------------------------------------------------------- accepting a child

  datatype CheckStatus = Success | ManagedIdxMismatch | DeadIndicesMismatch | StaticIdxMismatch | Raised

  /** Whether the node may be replayed; `Raised` is the error the source raises when a
      tensor that died during recording would survive the clearing of its input. */
  function CheckInvariants(rerecordIfStaticsChange: bool, s: State, r: GraphRecord, rest: Heap, inputs: seq<Input>): CheckStatus {
    if !PtrsEqual(inputs, r.staticPtrs, r.managed) then ManagedIdxMismatch
    else if !AllIndexedDead(s.heap, s.slots, r.path, r.deadBefore) then DeadIndicesMismatch
    else if rerecordIfStaticsChange && !PtrsEqual(inputs, r.staticPtrs, r.staticIdxs) then StaticIdxMismatch
    else if !AllIndexedDead(HeapWith(rest, ClearAt(inputs, r.managed)), s.slots, r.path, r.deadAfter) then Raised
    else Success
  }

  // ---------------------------------------------------------------- rebuilding outputs

  /** The static inputs that are not outputs of the tree. */
  function NonManagedStatics(r: GraphRecord, n: nat): seq<nat>
    requires n <= |r.staticIdxs|
  {
    if n == 0 then []
    else NonManagedStatics(r, n - 1) + (if r.staticIdxs[n - 1] in r.managed then [] else [r.staticIdxs[n - 1]])
  }

  predicate StaticsStable(r: GraphRecord, inputs: seq<Input>) {
    PtrsEqual(inputs, r.staticPtrs, NonManagedStatics(r, |r.staticIdxs|))
  }

  /** What is referenced while the outputs are rebuilt: the caller's other references
      and the static inputs still in the list. */
  function RebuildHeap(r: GraphRecord, rest: Heap, inputs: seq<Input>): Heap {
    HeapWith(rest, KeepStatic(ClearAt(inputs, r.managed), r.staticIdxs))
  }

  /** The storages of earlier nodes that outputs alias can still be reached. */
  predicate AliasedPriorsLive(h: Heap, slots: Slots, r: GraphRecord) {
    forall i :: 0 <= i < |r.outs| && r.outs[i].Tracked? && r.outs[i].alias.PriorOutput? ==>
      LiveAt(h, slots, r.path, r.outs[i].alias.index.depth, r.outs[i].alias.index.output)
  }

  predicate Flagged(flags: seq<bool>, i: nat) {
    i < |flags| && flags[i]
  }

  /** The storage of rebuilt output `i`; `base + i` numbers the storage made for it if one is. */
  function RebuiltStorage(r: GraphRecord, slots: Slots, row: Row, flags: seq<bool>, cached: bool, base: StorageId, i: nat): StorageId
    decreases i
  {
    if i >= |r.outs| || !r.outs[i].Tracked? then base + i
    else match r.outs[i].alias
      case Unaliased =>
        if Flagged(flags, i) && cached && i < |row| && row[i].Some? then row[i].value.storage else base + i
      case PriorOutput(p) =>
        if InPath(slots, r.path, p.depth, p.output) then SlotAt(slots, r.path, p.depth, p.output).storage else base + i
      case NewOutput(j) =>
        if j < i then RebuiltStorage(r, slots, row, flags, cached, base, j) else base + i
  }

  /** The node's weak references after a replay. */
  function RebuiltRow(r: GraphRecord, slots: Slots, row: Row, flags: seq<bool>, cached: bool, base: StorageId): (out: Row)
    requires |row| == |r.outs|
  {
    seq(|row|, i requires 0 <= i < |row| =>
      if row[i].None? then None
      else Some(WeakRef(RebuiltStorage(r, slots, row, flags, cached, base, i), row[i].value.ptr, Flagged(flags, i))))
  }

  function InitialCache(flags: seq<bool>, base: StorageId): (out: seq<Option<StorageId>>) {
    seq(|flags|, i requires 0 <= i < |flags| => if flags[i] then Some(base + i) else None)
  }

  /** Storages of the row at positions that are (not) cached: what the caller receives. */
  function RowStorages(row: Row, flags: seq<bool>, cached: bool): set<StorageId> {
    set i | 0 <= i < |row| && row[i].Some? && (Flagged(flags, i) <==> cached) :: row[i].value.storage
  }

  /** The storages made for a newly filled cache. */
  function NewlyCached(flags: seq<bool>, base: StorageId): set<StorageId> {
    set i | 0 <= i < |flags| && flags[i] :: base + i
  }

  /** The registry entries of a newly filled cache. */
  function CachePlaces(id: GraphId, flags: seq<bool>, base: StorageId): map<StorageId, Place> {
    map x | x in NewlyCached(flags, base) :: Place(id, x - base)
  }

  /** The node has its tables. */
  predicate Replayable(s: State, id: GraphId) {
    id in s.recs && id in s.slots && id in s.unaliased && id in s.caches && |s.slots[id]| == |s.recs[id].outs|
  }

  /** The node becomes current and its outputs are handed out. */
  function Replay(s: State, id: GraphId, rest: Heap): State
    requires Replayable(s, id)
  {
    var r, flags, base := s.recs[id], s.unaliased[id], s.nextStorage;
    var cached := s.caches[id] != [];
    var cache := if cached then s.caches[id] else InitialCache(flags, base);
    var row := RebuiltRow(r, s.slots, s.slots[id], flags, cached, base);
    s.(slots := s.slots[id := row],
       caches := s.caches[id := cache],
       current := Some(id), pathState := Executing, currentGen := CurrGeneration(s),
       heap := Heap(rest.tensors + RowStorages(row, flags, true),
                    rest.views + RowStorages(row, flags, false),
                    s.heap.cached + CachePlaces(id, if cached then [] else flags, base)),
       nextStorage := base + |r.outs|)
  }

  // ---------------------------------------------------------------- a replay that raises

  /** The first output from `n` on whose aliased storage cannot be reached, or the number of outputs. */
  function FirstGone(h: Heap, slots: Slots, r: GraphRecord, n: nat): nat
    requires n <= |r.outs|
    decreases |r.outs| - n
  {
    if n == |r.outs| then n
    else if r.outs[n].Tracked? && r.outs[n].alias.PriorOutput? &&
            !LiveAt(h, slots, r.path, r.outs[n].alias.index.depth, r.outs[n].alias.index.output) then n
    else FirstGone(h, slots, r, n + 1)
  }

  /** The node's weak references when rebuilding stopped before output `n`: the outputs before it
      and the cached ones are rebuilt. */
  function HalfRebuiltRow(r: GraphRecord, slots: Slots, row: Row, flags: seq<bool>, cached: bool, base: StorageId, n: nat): (out: Row)
    requires |row| == |r.outs|
  {
    seq(|row|, i requires 0 <= i < |row| =>
      if i < n || Flagged(flags, i) then RebuiltRow(r, slots, row, flags, cached, base)[i] else row[i])
  }

  /** The node is current, the managed inputs are out of the list, and nothing was run. */
  function StoppedAtInputs(s: State, id: GraphId, rest: Heap, inputs: seq<Input>): State
    requires id in s.recs
  {
    s.(current := Some(id), pathState := Executing, currentGen := CurrGeneration(s),
       heap := HeapWith(rest, ClearAt(inputs, s.recs[id].managed)))
  }

  /** The node is current and its graph ran; the outputs rebuilt so far are dropped, but the
      cache is filled and the weak references are moved. */
  function StoppedAtOutputs(s: State, id: GraphId, rest: Heap, inputs: seq<Input>): State
    requires Replayable(s, id)
  {
    var r, flags, base := s.recs[id], s.unaliased[id], s.nextStorage;
    var cached := s.caches[id] != [];
    var h := RebuildHeap(r, rest, inputs);
    s.(slots := s.slots[id := HalfRebuiltRow(r, s.slots, s.slots[id], flags, cached, base, FirstGone(h, s.slots, r, 0))],
       caches := s.caches[id := if cached then s.caches[id] else InitialCache(flags, base)],
       current := Some(id), pathState := Executing, currentGen := CurrGeneration(s),
       heap := h.(cached := s.heap.cached + CachePlaces(id, if cached then [] else flags, base)),
       nextStorage := base + |r.outs|)
  }
}
