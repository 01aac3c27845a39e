/**
 When an accepted child can really be replayed. Accepting a child clears every input
 that the tree manages, including one that an output of the child aliases, and the
 table that would exempt such inputs is filled but never consulted. So the rebuild
 succeeds exactly when the aliased storage is referenced from somewhere else.
 */
module AliasedReplay {
  import opened Options
  import opened Storages
  import opened PathIndices
  import opened TreeState
  import opened PathOps
  import opened Recordings
  import opened Replays
  import opened ReplayProofs
  import opened Calls

  /** The caller references storage `x` other than through an input that accepting the
      node clears or copies: outside the list, or by an unmanaged static input. */
  predicate ReferencedElsewhere(r: GraphRecord, rest: Heap, inputs: seq<Input>, x: StorageId) {
    || Held(rest, x)
    || exists j :: 0 <= j < |inputs| && inputs[j].Tensor? && inputs[j].storage == x && j !in r.managed && j in r.staticIdxs
  }

  /** Every storage of an earlier node that an output aliases is referenced elsewhere. */
  predicate AliasedPriorsReferenced(s: State, r: GraphRecord, rest: Heap, inputs: seq<Input>) {
    forall i :: 0 <= i < |r.outs| && r.outs[i].Tracked? && r.outs[i].alias.PriorOutput? ==>
      var p := r.outs[i].alias.index;
      InPath(s.slots, r.path, p.depth, p.output) && ReferencedElsewhere(r, rest, inputs, SlotAt(s.slots, r.path, p.depth, p.output).storage)
  }

  lemma RebuildHeapHolds(r: GraphRecord, rest: Heap, inputs: seq<Input>, x: StorageId)
    ensures Held(RebuildHeap(r, rest, inputs), x) <==> ReferencedElsewhere(r, rest, inputs, x)
  {
    var left := KeepStatic(ClearAt(inputs, r.managed), r.staticIdxs);
    if j :| 0 <= j < |inputs| && inputs[j].Tensor? && inputs[j].storage == x && j !in r.managed && j in r.staticIdxs {
      assert left[j] == inputs[j];
    }
    if x in InputStorages(left) {
      var j :| 0 <= j < |left| && left[j].Tensor? && left[j].storage == x;
      assert inputs[j] == left[j];
    }
  }

  lemma RebuildHeapTracks(s: State, id: GraphId, rest: Heap, inputs: seq<Input>)
    requires CanProbe(s, id, rest, inputs)
    ensures AllTracked(RebuildHeap(s.recs[id], rest, inputs), s.slots)
  {
    var left := KeepStatic(ClearAt(inputs, s.recs[id].managed), s.recs[id].staticIdxs);
    ClearedHeapFollows(rest, inputs, left, s.nextStorage);
    FollowsTracking(HeapWith(rest, left), s.heap, s.slots, s.nextStorage, s.nextStorage);
  }

  lemma AliasedPriorsLiveIff(s: State, id: GraphId, rest: Heap, inputs: seq<Input>)
    requires CanProbe(s, id, rest, inputs)
    ensures AliasedPriorsLive(RebuildHeap(s.recs[id], rest, inputs), s.slots, s.recs[id]) <==>
            AliasedPriorsReferenced(s, s.recs[id], rest, inputs)
  {
    var r := s.recs[id];
    RebuildHeapTracks(s, id, rest, inputs);
    hide CanProbe;
    forall d: nat, j: nat | InPath(s.slots, r.path, d, j)
      ensures LiveAt(RebuildHeap(r, rest, inputs), s.slots, r.path, d, j) <==>
              ReferencedElsewhere(r, rest, inputs, SlotAt(s.slots, r.path, d, j).storage)
    {
      LiveAtIsHeld(RebuildHeap(r, rest, inputs), s.slots, r.path, d, j);
      RebuildHeapHolds(r, rest, inputs, SlotAt(s.slots, r.path, d, j).storage);
    }
  }

  /** An accepted child whose static inputs did not move is replayed if and only if the
      caller references every aliased storage of an earlier node elsewhere. */
  lemma ReplaySucceedsIff(cfg: Config, s: State, id: GraphId, c: Call, trail: seq<State>)
    requires CanProbe(s, id, c.rest, c.inputs) && Accepted(s, id, c.rest, c.inputs)
    requires RerecordsOnMovedStatics(cfg) || StaticsStable(s.recs[id], ClearAt(c.inputs, s.recs[id].managed))
    ensures ReplayResult(cfg, s, id, c, trail).outcome == Replayed(id) <==> AliasedPriorsReferenced(s, s.recs[id], c.rest, c.inputs)
    ensures ReplayResult(cfg, s, id, c, trail).outcome in {Replayed(id), Failed(AliasedOutputGone)}
  {
    AliasedPriorsLiveIff(s, id, c.rest, c.inputs);
    ReplayDefined(s, id);
  }

  // ---------------------------------------------------------------- a failing replay

  /** Node 0 returns a tensor at address 8. Node 1, recorded below it, takes that tensor
      as its input and returns it; both recordings went well. */
  const First := GraphRecord(
    0, [0], [Tracked(8, Unaliased)], [], [[true]], [], [], [PathIndex(0, 0)], {8}, {8}, [], [], [])

  const Second := GraphRecord(
    1, [0, 1], [Tracked(8, PriorOutput(PathIndex(0, 0)))], [[true], []], [[true], [true]], [], [],
    [PathIndex(0, 0), PathIndex(1, 0)], {8}, {}, [0], [0], [Some(8)])

  const BothRecords: map<GraphId, GraphRecord> := map[0 := First, 1 := Second]

  /** A later generation has just replayed node 0 and holds its output, storage 1. */
  const Replayed0 := State(
    BothRecords, map[],
    map[0 := [Some(WeakRef(1, 8, false))], 1 := [Some(WeakRef(0, 8, false))]],
    map[0 := [false], 1 := [false]], map[0 := [None], 1 := []],
    map[Site(None, 0) := [0], Site(Some(0), 1) := [1]],
    Some(0), Executing, 1, false, {}, map[Site(None, 0) := false, Site(Some(0), 1) := false], map[], 2, -1,
    Heap({}, {1}, map[]), map[], 2, 1, 0)

  /** The caller hands the tensor over and keeps no reference of its own. */
  const HandedOver := [Tensor(1, 8, 8)]
  const NothingElse := Heap({}, {}, map[])

  lemma FirstIsOk()
    ensures RecordOk(BothRecords, 0)
  {
    assert PathOk(BothRecords, 0);
    assert At(First.after, 0, 0) && TrackedAt(BothRecords, First.path, 0, 0);
    assert MemoryOk(BothRecords, 0);
  }

  lemma SecondTablesOk()
    ensures PathOk(BothRecords, 1) && TablesOk(BothRecords, 1)
  {
    assert Second.path[..1] == [0] && Second.path[..2] == [0, 1];
  }

  lemma SecondIndicesOk()
    ensures PathOk(BothRecords, 1) && IndicesOk(BothRecords, 1)
  {
    assert Second.path[..1] == [0] && Second.path[..2] == [0, 1];
  }

  lemma SecondMemoryOk()
    ensures PathOk(BothRecords, 1) && MemoryOk(BothRecords, 1) && AliasOk(BothRecords, 1, 0)
  {
    assert Second.path[..1] == [0] && Second.path[..2] == [0, 1];
    assert At(Second.after, 0, 0) && TrackedAt(BothRecords, Second.path, 0, 0);
  }

  lemma BothAreOk()
    ensures RecordsOk(BothRecords)
  {
    FirstIsOk();
    SecondTablesOk();
    SecondIndicesOk();
    SecondMemoryOk();
    hide PathOk;
    hide TablesOk;
    hide IndicesOk;
    hide MemoryOk;
    hide AliasOk;
    assert RecordOk(BothRecords, 1);
  }

  lemma FailingNodesOk()
    ensures NodesOk(Replayed0)
  {
    assert NodeOk(Replayed0, 0) && NodeOk(Replayed0, 1);
  }

  lemma FailingTablesOk()
    ensures IdsOk(Replayed0) && FlagsOk(Replayed0)
  {
    FailingIdsOk();
    hide IdsOk;
  }

  lemma FailingIdsOk()
    ensures IdsOk(Replayed0)
  {
  }

  lemma FailingChildrenOk()
    ensures ChildrenOk(Replayed0)
  {
  }

  lemma FailingTracking()
    ensures TrackingOk(Replayed0)
  {
  }

  lemma FailingCurrent()
    ensures CurPath(Replayed0) == [0] && CurrentOk(Replayed0)
  {
  }

  lemma FailingPathOk()
    ensures TrackingOk(Replayed0) && CurPath(Replayed0) == [0] && CurrentOk(Replayed0) && PathLiveOk(Replayed0)
  {
    FailingTracking();
    FailingCurrent();
    hide TrackingOk;
    hide CurrentOk;
  }

  lemma FailingStateIsValid()
    ensures Valid(Replayed0)
  {
    BothAreOk();
    FailingNodesOk();
    FailingTablesOk();
    FailingChildrenOk();
    FailingPathOk();
    hide RecordsOk;
    hide NodesOk;
    hide TrackingOk;
    hide IdsOk;
    hide FlagsOk;
    hide ChildrenOk;
    hide CurrentOk;
    hide PathLiveOk;
  }

  /** The state is one the invariant allows, the child is accepted, and yet it cannot be
      replayed: accepting it has taken away the only reference to what it aliases. */
  lemma AcceptedButNotReplayable()
    ensures CanProbe(Replayed0, 1, NothingElse, HandedOver)
    ensures CheckInvariants(false, Replayed0, Second, NothingElse, HandedOver) == Success
    ensures !AliasedPriorsReferenced(Replayed0, Second, NothingElse, HandedOver)
    ensures !AliasedPriorsLive(RebuildHeap(Second, NothingElse, HandedOver), Replayed0.slots, Second)
  {
    FailingStateIsValid();
    FailingPathOk();
    hide Valid;
    assert InputStorages(HandedOver) == {1} by { assert HandedOver[0].storage == 1; }
    AliasedPriorsLiveIff(Replayed0, 1, NothingElse, HandedOver);
    assert Second.outs[0].Tracked?;
  }
}
