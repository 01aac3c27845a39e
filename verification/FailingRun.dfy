/**
 A run that ends in a call that raises: function 0 is recorded, function 1 is recorded
 behind it and returns its own input, a new generation replays function 0, and then
 function 1 is accepted for replay and cannot be rebuilt.
 */
module FailingRun {
  import opened Options
  import opened Storages
  import opened PathIndices
  import opened TreeState
  import opened PathOps
  import opened Recordings
  import opened Replays
  import opened ReplayProofs
  import opened Calls
  import opened CallProofs
  import opened Runs
  import opened AliasedReplay

  /** Warmups are skipped; no function has static or mutated inputs. */
  const Plain := Config(map[], true, false, false, false, 0)

  const NoRefs := Heap({}, {}, map[])
  const Nowhere: Site := Site(None, 0)
  const Behind: Site := Site(Some(0), 1)

  // ---------------------------------------------------------------- recording function 0

  /** Function 0 allocates a tensor at address 8 and returns it. */
  const Allocates := ModelRun({}, {0}, [RawTensor(0, 8)], {}, {}, {8}, 1)

  const Call0 := Call(0, [], NoRefs, Allocates)

  /** The state in which function 0 is recorded. */
  const Asked := Initial.(hints := map[Nowhere := false], children := map[Nowhere := []])

  const Recorded0 := State(
    map[0 := First], map[], map[0 := [Some(WeakRef(0, 8, false))]], map[0 := [true]], map[0 := []],
    map[Nowhere := [0]], Some(0), Recording, 0, false, {}, map[Nowhere := false], map[], 1, -1,
    Heap({}, {0}, map[]), map[8 := Some(0)], 1, 0, 0)

  lemma AskedOuts()
    ensures RecordedOuts(Asked, Allocates) == [Tracked(8, Unaliased)]
  {
    assert AllIndices(Asked.slots, []) == [];
    assert Classify(HeapAfter(Asked, Allocates), Asked.slots, CurPath(Asked), Allocates, 0) == [];
  }

  lemma AskedTables()
    ensures RecordedSlots(Asked, Allocates) == Recorded0.slots
    ensures RecordedPool(Asked, Allocates) == Recorded0.pool
    ensures OwnFlags(RecordedOuts(Asked, Allocates)) == [true]
    ensures RecordedAfter(Asked, Allocates) == [[true]]
  {
    AskedOuts();
    hide Classify;
    assert OwnRow([Tracked(8, Unaliased)], Allocates.outs) == [Some(WeakRef(0, 8, false))];
    assert OwnFlag([Tracked(8, Unaliased)], 0);
    assert OwnFlags([Tracked(8, Unaliased)]) == [true];
    assert FreeDead(Asked.pool, HeapAfter(Asked, Allocates)) == map[];
    assert Allocate(map[], [Tracked(8, Unaliased)], Allocates.outs, 0) == map[];
    assert Allocate(map[], [Tracked(8, Unaliased)], Allocates.outs, 1) == map[8 := Some(0)];
    assert RecordPath(Asked) == [0];
    assert LiveRow(HeapAfter(Asked, Allocates), [Some(WeakRef(0, 8, false))]) == [true];
  }

  lemma AskedRecord()
    ensures NewRecord(Asked, 0, [], [], Allocates) == First
  {
    AskedOuts();
    AskedTables();
    hide RecordedOuts;
    hide RecordedAfter;
    hide RecordedPool;
    assert RecordPath(Asked) == [0];
    assert Differences([], LivenessOf(HeapAfter(Asked, Allocates), Asked.slots, RecordPath(Asked))) == [];
    assert TrueIndices([[true]], 0) == [];
    assert RowIndices([true], 0, 0) == [];
    assert TrueIndices([[true]], 1) == [PathIndex(0, 0)];
    assert StaticPtrs([], []) == [];
  }

  lemma Recording0()
    ensures Record(Asked, 0, [], [], Allocates) == Recorded0
  {
    AskedRecord();
    AskedTables();
    hide NewRecord;
    hide RecordedSlots;
    hide RecordedPool;
    hide RecordedOuts;
    hide OwnFlags;
    var r := Record(Asked, 0, [], [], Allocates);
    assert MarkAliased(Asked.unaliased, CurPath(Asked), RecordedOuts(Asked, Allocates)) == map[];
    assert r.recs == Recorded0.recs;
    assert r.unaliased == Recorded0.unaliased;
    assert r.caches == Recorded0.caches;
    assert ChildrenAt(Asked.children, Nowhere) + [Asked.nextGraph] == [0];
    assert r.children == Recorded0.children;
  }

  lemma Run0IsFine()
    ensures RecordingRun(Asked, Allocates)
  {
    assert OutputIsNew(Asked, Allocates, 0);
  }

  lemma Calling0()
    ensures RunCall(Plain, Initial, Call0).outcome == Recorded(0, None)
    ensures RunCall(Plain, Initial, Call0).ranIn == Some(Asked)
    ensures EndsIn(RunCall(Plain, Initial, Call0), Recorded0)
  {
    Recording0();
    hide Record;
    hide RecordingRun;
    var s2 := EnsureHint(Plain, Initial, 0, []);
    assert s2 == Initial.(hints := map[Nowhere := false]);
    assert TouchChildren(s2, Nowhere) == Asked;
    assert ProbeFrom(Plain, Asked, [], Call0, 0, false) == NoMatch(false);
    var trail := [Initial, Initial, s2, Asked];
    assert ProbeChildren(Plain, s2, Call0, [Initial, Initial, s2]) == AfterProbe(Plain, Asked, Call0, false, trail);
    assert AfterProbe(Plain, Asked, Call0, false, trail) == RecordResult(Plain, Asked, Call0, None, trail + [Asked, Asked, Asked]);
  }

  // ---------------------------------------------------------------- recording function 1

  /** Function 1 returns its input and allocates nothing. */
  const Returns := ModelRun({}, {0}, [RawTensor(0, 8)], {}, {}, {}, 1)

  const TheTensor: seq<Input> := [Tensor(0, 8, 8)]

  const Call1 := Call(1, TheTensor, NoRefs, Returns)

  const Hinted := Recorded0.(hints := map[Nowhere := false, Behind := false])

  const Recorded1 := State(
    BothRecords, map[], map[0 := [Some(WeakRef(0, 8, false))], 1 := [Some(WeakRef(0, 8, false))]],
    map[0 := [false], 1 := [false]], map[0 := [], 1 := []], map[Nowhere := [0], Behind := [1]],
    Some(1), Recording, 0, false, {}, map[Nowhere := false, Behind := false], map[], 2, -1,
    Heap({}, {0}, map[]), map[8 := Some(0)], 1, 0, 0)

  lemma HintedPath()
    ensures CurPath(Hinted) == [0] && RecordPath(Hinted) == [0, 1]
    ensures LiveAt(HeapAfter(Hinted, Returns), Hinted.slots, [0], 0, 0)
  {
  }

  lemma HintedOuts()
    ensures RecordedOuts(Hinted, Returns) == [Tracked(8, PriorOutput(PathIndex(0, 0)))]
  {
    HintedPath();
    var bits := EverySlot(Hinted.slots, [0]);
    assert RowIndices(bits[0], 0, 0) == [];
    assert RowIndices(bits[0], 0, 1) == [PathIndex(0, 0)];
    assert TrueIndices(bits, 0) == [];
    assert AllIndices(Hinted.slots, [0]) == [PathIndex(0, 0)];
    assert AliasOfLive(HeapAfter(Hinted, Returns), Hinted.slots, [0], 8) == Some(PathIndex(0, 0));
    assert Classify(HeapAfter(Hinted, Returns), Hinted.slots, CurPath(Hinted), Returns, 0) == [];
  }

  lemma HintedTables()
    ensures RecordedSlots(Hinted, Returns) == Recorded1.slots
    ensures RecordedPool(Hinted, Returns) == Recorded1.pool
    ensures OwnFlags(RecordedOuts(Hinted, Returns)) == [false]
  {
    HintedOuts();
    hide Classify;
    var outs := [Tracked(8, PriorOutput(PathIndex(0, 0)))];
    assert OwnRow(outs, Returns.outs) == [Some(WeakRef(0, 8, false))];
    assert OwnFlags(outs) == [false];
    assert FreeDead(Hinted.pool, HeapAfter(Hinted, Returns)) == Hinted.pool;
    assert Allocate(Hinted.pool, outs, Returns.outs, 0) == Hinted.pool;
  }

  lemma HintedLiveness()
    ensures RecordBefore(Hinted) == [[true], []]
    ensures LivenessOf(HeapAfter(Hinted, Returns), Hinted.slots, RecordPath(Hinted)) == [[true], []]
    ensures RecordedAfter(Hinted, Returns) == [[true], [true]]
  {
    HintedPath();
    HintedTables();
    hide RecordedSlots;
    var row: Row := [Some(WeakRef(0, 8, false))];
    assert LiveRow(Hinted.heap, row) == [true];
    assert LiveRow(HeapAfter(Hinted, Returns), row) == [true];
    assert LiveRow(Hinted.heap, []) == [];
    assert LiveRow(HeapAfter(Hinted, Returns), []) == [];
    assert Recorded1.slots[1] == row && Recorded1.slots[0] == row;
  }

  lemma SomeIndices()
    ensures DifferentIndices([[true]], [[true], []]) == []
    ensures DifferentIndices([[true], []], [[true], []]) == []
    ensures TrueIndices([[true], [true]], 2) == [PathIndex(0, 0), PathIndex(1, 0)]
  {
    assert DifferenceRow([true], [true]) == [false] && DifferenceRow([], []) == [];
    assert Differences([[true]], [[true], []]) == [[false]];
    assert RowIndices([false], 0, 0) == [];
    assert RowIndices([false], 0, 1) == [];
    assert TrueIndices([[false]], 0) == [];
    assert TrueIndices([[false]], 1) == [];
    assert Differences([[true], []], [[true], []]) == [[false], []];
    assert TrueIndices([[false], []], 0) == [];
    assert TrueIndices([[false], []], 1) == [];
    assert TrueIndices([[false], []], 2) == [];
    assert RowIndices([true], 0, 0) == [] && RowIndices([true], 1, 0) == [];
    assert TrueIndices([[true], [true]], 0) == [];
    assert TrueIndices([[true], [true]], 1) == [PathIndex(0, 0)];
  }

  lemma HintedRecord()
    ensures NewRecord(Hinted, 1, [], TheTensor, Returns) == Second
  {
    HintedPath();
    HintedOuts();
    HintedTables();
    HintedLiveness();
    SomeIndices();
    hide RecordedOuts;
    hide RecordedAfter;
    hide RecordedPool;
    hide RecordBefore;
    hide LivenessOf;
    hide DifferentIndices;
    hide TrueIndices;
    assert IsRecordedTensor(Hinted.slots, [0], TheTensor[0]) by {
      assert InPath(Hinted.slots, [0], 0, 0);
    }
    assert ManagedIdxs(Hinted.slots, [0], TheTensor, 0) == [];
    assert ManagedIdxs(Hinted.slots, [0], TheTensor, 1) == [0];
    assert [] + [0] == [0];
    assert Distinct([0], 0) == [];
    assert Distinct([0], 1) == [0];
    assert StaticPtrs(TheTensor, [0]) == [Some(8)];
  }

  lemma Recording1()
    ensures Record(Hinted, 1, [], TheTensor, Returns) == Recorded1
  {
    HintedPath();
    HintedOuts();
    HintedRecord();
    HintedTables();
    hide NewRecord;
    hide RecordedSlots;
    hide RecordedPool;
    hide RecordedOuts;
    hide OwnFlags;
    var r := Record(Hinted, 1, [], TheTensor, Returns);
    var outs := [Tracked(8, PriorOutput(PathIndex(0, 0)))];
    assert AliasesPrior([0], outs, 0, 0) by {
      assert outs[0].Tracked?;
    }
    assert Hinted.unaliased == map[0 := [true]];
    assert MarkAliased(Hinted.unaliased, [0], outs)[0] == [false];
    assert MarkAliased(Hinted.unaliased, [0], outs) == map[0 := [false]];
    assert r.recs == Recorded1.recs;
    assert r.unaliased == Recorded1.unaliased;
    assert r.caches == Recorded1.caches;
    assert ChildrenAt(Hinted.children, Behind) + [Hinted.nextGraph] == [1];
    assert r.children == Recorded1.children;
  }

  lemma Run1IsFine()
    ensures RecordingRun(Hinted, Returns)
  {
    HintedPath();
    assert OutputOnPath(Hinted, Returns, 0) by {
      assert SlotAt(Hinted.slots, [0], 0, 0) == WeakRef(0, 8, false);
    }
  }

  lemma StillRecording()
    ensures Settle(Recorded0) == Recorded0
  {
    assert LiveAt(Recorded0.heap, Recorded0.slots, [0], 0, 0);
    assert !AllOutputsAreDead(Recorded0) by {
      assert ConsultedIndices(Recorded0)[0] == PathIndex(0, 0);
    }
    hide AllOutputsAreDead;
  }

  lemma Hinting1()
    ensures EnsureHint(Plain, Recorded0, 1, TheTensor) == Hinted
  {
  }

  lemma Calling1()
    ensures RunCall(Plain, Recorded0, Call1).outcome == Recorded(1, None)
    ensures RunCall(Plain, Recorded0, Call1).ranIn == Some(Hinted)
    ensures EndsIn(RunCall(Plain, Recorded0, Call1), Recorded1)
  {
    Recording1();
    StillRecording();
    Hinting1();
    hide Record;
    hide RecordingRun;
    hide Settle;
    hide EnsureHint;
    assert RunBody(Plain, Recorded0, Call1) == RecordResult(Plain, Hinted, Call1, None, [Recorded0, Recorded0, Hinted]);
  }

  // ---------------------------------------------------------------- a new generation

  const Dropped := Recorded1.(heap := NoRefs, pool := map[])

  const Later := Dropped.(generation := 1)

  lemma Dropping()
    ensures Follow(Plain, Recorded1, UserCode(NoRefs, 1), Dropped)
    ensures Follow(Plain, Dropped, NewInvocation(1), Later)
  {
    assert FreeDead(Recorded1.pool, NoRefs) == map[];
  }

  const Call2 := Call(0, [], NoRefs, Allocates)

  const Ended := Later.(current := None, pathState := NoPath)

  lemma Ending()
    ensures Settle(Later) == Ended
  {
    hide PathLiveWeakrefs;
    assert DeallocPath(Later).pool == map[];
  }

  lemma Accepting0()
    ensures CheckInvariants(false, Ended, First, NoRefs, []) == Success
  {
  }

  lemma Rebuilding0()
    ensures !(!RerecordsOnMovedStatics(Plain) && !StaticsStable(First, ClearAt([], First.managed)))
    ensures AliasedPriorsLive(RebuildHeap(First, NoRefs, []), Ended.slots, First)
    ensures Replayable(Ended, 0)
  {
    assert NonManagedStatics(First, 0) == [];
  }

  lemma Replaying0()
    ensures Replayable(Ended, 0) && Replay(Ended, 0, NoRefs) == Replayed0
  {
    var row := RebuiltRow(First, Ended.slots, Ended.slots[0], [false], false, 1);
    assert row == [Some(WeakRef(1, 8, false))];
    assert InitialCache([false], 1) == [None];
    assert RowStorages(row, [false], true) == {};
    assert RowStorages(row, [false], false) == {1} by {
      assert row[0].value.storage == 1;
    }
    assert NewlyCached([false], 1) == {};
    var r := Replay(Ended, 0, NoRefs);
    assert r.slots == Replayed0.slots;
    assert r.caches == Replayed0.caches;
    assert r.heap == Replayed0.heap;
  }

  lemma Calling2()
    ensures RunCall(Plain, Later, Call2).outcome == Replayed(0)
    ensures EndsIn(RunCall(Plain, Later, Call2), Replayed0)
  {
    Ending();
    Rebuilding0();
    Replaying0();
    hide Settle;
    hide Replay;
    hide Replayable;
    hide RebuildHeap;
    hide ClearAt;
    hide StaticsStable;
    hide AliasedPriorsLive;
    assert EnsureHint(Plain, Ended, 0, []) == Ended;
    Probing2();
    hide ProbeChildren;
  }

  lemma Probing2()
    ensures ProbeChildren(Plain, Ended, Call2, [Later, Ended, Ended]) == ReplayResult(Plain, Ended, 0, Call2, [Later, Ended, Ended, Ended])
  {
    Accepting0();
    hide CheckInvariants;
    hide ReplayResult;
    assert ChildrenAt(Ended.children, Nowhere) == [0];
    assert TouchChildren(Ended, Nowhere) == Ended;
    assert ProbeFrom(Plain, Ended, [0], Call2, 0, false) == Accept(0);
    assert [Later, Ended, Ended] + [Ended] == [Later, Ended, Ended, Ended];
  }

  // ---------------------------------------------------------------- the call that raises

  const Call3 := Call(1, HandedOver, NothingElse, Returns)

  lemma HandedOverIsHeld()
    ensures CallOk(Replayed0, Call3)
  {
    assert InputStorages(HandedOver) == {1} by {
      assert HandedOver[0].storage == 1;
    }
  }

  lemma NoStatics()
    ensures StaticsStable(Second, ClearAt(HandedOver, [0]))
  {
    assert NonManagedStatics(Second, 0) == [];
    assert NonManagedStatics(Second, 1) == [];
  }

  lemma Rebuilding1(trail: seq<State>)
    ensures ReplayResult(Plain, Replayed0, 1, Call3, trail).outcome == Failed(AliasedOutputGone)
    ensures CheckInvariants(false, Replayed0, Second, NothingElse, HandedOver) == Success
  {
    AcceptedButNotReplayable();
    NoStatics();
    hide CheckInvariants;
    hide AliasedPriorsLive;
    hide RebuildHeap;
    hide StaticsStable;
    hide CanProbe;
    hide AliasedPriorsReferenced;
  }

  lemma Calling3()
    ensures RunCall(Plain, Replayed0, Call3).outcome == Failed(AliasedOutputGone)
  {
    var trail := [Replayed0, Replayed0, Replayed0];
    Rebuilding1(trail + [Replayed0]);
    hide CheckInvariants;
    hide ReplayResult;
    assert EnsureHint(Plain, Replayed0, 1, HandedOver) == Replayed0;
    assert ChildrenAt(Replayed0.children, Behind) == [1];
    assert TouchChildren(Replayed0, Behind) == Replayed0;
    assert ProbeFrom(Plain, Replayed0, [1], Call3, 0, false) == Accept(1);
    assert ProbeChildren(Plain, Replayed0, Call3, trail) == ReplayResult(Plain, Replayed0, 1, Call3, trail + [Replayed0]);
  }

  const RunStates := [Initial, Recorded0, Recorded1, Dropped, Later, Replayed0]

  const RunEvents := [Invoke(Call0), Invoke(Call1), UserCode(NoRefs, 1), NewInvocation(1), Invoke(Call2)]

  lemma Call0Follows()
    ensures Follow(Plain, Initial, Invoke(Call0), Recorded0)
  {
    Calling0();
    Run0IsFine();
    hide RunCall;
    hide RecordingRun;
  }

  lemma Call1Follows()
    ensures Follow(Plain, Recorded0, Invoke(Call1), Recorded1)
  {
    Calling1();
    Run1IsFine();
    hide RunCall;
    hide RecordingRun;
    assert InputStorages(TheTensor) == {0} by {
      assert TheTensor[0].storage == 0;
    }
  }

  lemma Call2Follows()
    ensures Follow(Plain, Later, Invoke(Call2), Replayed0)
  {
    Calling2();
    hide RunCall;
  }

  /** The failing state is reached: from it a call goes through every test and then raises. */
  lemma RunEndsInFailure()
    ensures IsRun(Plain, RunStates, RunEvents)
    ensures RunStates[5] == Replayed0 && CallOk(Replayed0, Call3)
    ensures RunCall(Plain, Replayed0, Call3).outcome == Failed(AliasedOutputGone)
  {
    Call0Follows();
    Call1Follows();
    Call2Follows();
    Dropping();
    Calling3();
    HandedOverIsHeld();
    hide CallOk;
    hide Follow;
    hide RunCall;
  }
}
