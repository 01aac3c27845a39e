/**
 What it means that a recorded node may be replayed: its inputs are where they were when
 it was recorded, and the outputs that were dead then are dead now.
 */
module Acceptance {
  import opened Options
  import opened Storages
  import opened PathIndices
  import opened TreeState
  import opened PathOps
  import opened Recordings
  import opened RecordingProofs
  import opened Replays
  import opened ReplayProofs

  // ---------------------------------------------------------------- addresses

  /** Both lists have a tensor at this position, at the same address. */
  predicate SameAddress(a: seq<Input>, b: seq<Input>, i: nat) {
    i < |a| && i < |b| && a[i].Tensor? && b[i].Tensor? && a[i].data == b[i].data
  }

  /** The input was an output of the path when the node was recorded. */
  predicate FromPath(s: State, inputs: seq<Input>, i: nat) {
    i < |inputs| && IsRecordedTensor(s.slots, CurPath(s), inputs[i])
  }

  lemma {:induction false} ManagedMember(slots: Slots, path: seq<GraphId>, inputs: seq<Input>, n: nat, i: nat)
    requires n <= |inputs|
    ensures i in ManagedIdxs(slots, path, inputs, n) <==> i < n && IsRecordedTensor(slots, path, inputs[i])
  {
    hide IsRecordedTensor;
    if n > 0 {
      ManagedMember(slots, path, inputs, n - 1, i);
    }
  }

  lemma {:induction false} DistinctMember(a: seq<nat>, n: nat, i: nat)
    requires n <= |a|
    ensures i in Distinct(a, n) <==> i in a[..n]
  {
    if n > 0 {
      DistinctMember(a, n - 1, i);
      assert a[..n] == a[..n - 1] + [a[n - 1]];
    }
  }

  /** The positions that a recording remembers: inputs from the path, and with them the statics. */
  lemma RecordedPositions(s: State, fn: FunctionId, statics: seq<nat>, inputs: seq<Input>, run: ModelRun, i: nat)
    ensures var r := NewRecord(s, fn, statics, inputs, run);
            && (i in r.managed <==> FromPath(s, inputs, i))
            && (i in r.staticIdxs <==> i in statics || FromPath(s, inputs, i))
            && r.staticPtrs == StaticPtrs(inputs, r.staticIdxs)
  {
    hide IsRecordedTensor;
    hide RecordedOuts;
    hide RecordedAfter;
    hide RecordedPool;
    hide DifferentIndices;
    hide TrueIndices;
    var managed := ManagedIdxs(s.slots, CurPath(s), inputs, |inputs|);
    ManagedMember(s.slots, CurPath(s), inputs, |inputs|, i);
    var all := statics + managed;
    DistinctMember(all, |all|, i);
    assert all[..|all|] == all;
  }

  /** Comparing with the remembered addresses is comparing with the recorded inputs. */
  lemma PtrsEqualIff(recorded: seq<Input>, idxs: seq<nat>, now: seq<Input>, some: seq<nat>)
    requires forall i :: i in some ==> i in idxs
    ensures PtrsEqual(now, StaticPtrs(recorded, idxs), some) <==> forall i :: i in some ==> SameAddress(recorded, now, i)
  {
    var ptrs := StaticPtrs(recorded, idxs);
    forall i: nat | i in some
      ensures (i < |now| && i < |ptrs| && now[i].Tensor? && ptrs[i] == Some(now[i].data)) <==> SameAddress(recorded, now, i)
    {
    }
    assert forall k :: 0 <= k < |some| ==> some[k] in some;
  }

  /** Some input from the path moved, or is none any more. */
  ghost predicate ManagedMoved(s: State, recorded: seq<Input>, now: seq<Input>) {
    exists i: nat :: FromPath(s, recorded, i) && !SameAddress(recorded, now, i)
  }

  ghost predicate StaticMoved(statics: seq<nat>, recorded: seq<Input>, now: seq<Input>) {
    exists i: nat :: i in statics && !SameAddress(recorded, now, i)
  }

  /** How a recorded node fares in a later call, by addresses: it is refused for a pointer exactly
      when an input from the path moved or, where that counts, a static one did. */
  lemma RefusedForPointerIff(s0: State, fn: FunctionId, statics: seq<nat>, recorded: seq<Input>, run: ModelRun,
                             rerecord: bool, s: State, rest: Heap, now: seq<Input>)
    ensures var r := NewRecord(s0, fn, statics, recorded, run);
            var status := CheckInvariants(rerecord, s, r, rest, now);
            && (status == ManagedIdxMismatch <==> ManagedMoved(s0, recorded, now))
            && (status == StaticIdxMismatch <==>
                  && !ManagedMoved(s0, recorded, now) && rerecord && StaticMoved(statics, recorded, now)
                  && AllIndexedDead(s.heap, s.slots, r.path, r.deadBefore))
  {
    RecordedPointers(s0, fn, statics, recorded, run, now);
    hide NewRecord;
    hide PtrsEqual;
    hide AllIndexedDead;
    hide ManagedMoved;
    hide StaticMoved;
  }

  lemma RecordedPointers(s: State, fn: FunctionId, statics: seq<nat>, recorded: seq<Input>, run: ModelRun, now: seq<Input>)
    ensures var r := NewRecord(s, fn, statics, recorded, run);
            && (PtrsEqual(now, r.staticPtrs, r.managed) <==> !ManagedMoved(s, recorded, now))
            && (PtrsEqual(now, r.staticPtrs, r.staticIdxs) <==> !ManagedMoved(s, recorded, now) && !StaticMoved(statics, recorded, now))
  {
    var r := NewRecord(s, fn, statics, recorded, run);
    forall i: nat
      ensures i in r.managed <==> FromPath(s, recorded, i)
      ensures i in r.staticIdxs <==> i in statics || FromPath(s, recorded, i)
      ensures r.staticPtrs == StaticPtrs(recorded, r.staticIdxs)
    {
      RecordedPositions(s, fn, statics, recorded, run, i);
    }
    hide NewRecord;
    hide FromPath;
    PtrsEqualIff(recorded, r.staticIdxs, now, r.managed);
    PtrsEqualIff(recorded, r.staticIdxs, now, r.staticIdxs);
    hide PtrsEqual;
    hide SameAddress;
  }

  lemma {:induction false} NonManagedMember(r: GraphRecord, n: nat, i: nat)
    requires n <= |r.staticIdxs|
    ensures i in NonManagedStatics(r, n) <==> i in r.staticIdxs[..n] && i !in r.managed
  {
    if n > 0 {
      NonManagedMember(r, n - 1, i);
      assert r.staticIdxs[..n] == r.staticIdxs[..n - 1] + [r.staticIdxs[n - 1]];
    }
  }

  /** The check before a replay compares the static inputs that are not from the path. */
  lemma StaticsStableIff(s: State, fn: FunctionId, statics: seq<nat>, recorded: seq<Input>, run: ModelRun, now: seq<Input>)
    ensures var r := NewRecord(s, fn, statics, recorded, run);
            StaticsStable(r, ClearAt(now, r.managed)) <==>
            forall i: nat :: i in statics && !FromPath(s, recorded, i) ==> SameAddress(recorded, now, i)
  {
    var r := NewRecord(s, fn, statics, recorded, run);
    var some, cleared := NonManagedStatics(r, |r.staticIdxs|), ClearAt(now, r.managed);
    forall i: nat
      ensures i in some <==> i in statics && !FromPath(s, recorded, i)
      ensures i in some ==> i in r.staticIdxs
      ensures i in some ==> (SameAddress(recorded, cleared, i) <==> SameAddress(recorded, now, i))
      ensures r.staticPtrs == StaticPtrs(recorded, r.staticIdxs)
    {
      RecordedPositions(s, fn, statics, recorded, run, i);
      NonManagedMember(r, |r.staticIdxs|, i);
      assert r.staticIdxs[..|r.staticIdxs|] == r.staticIdxs;
    }
    hide NewRecord;
    hide FromPath;
    PtrsEqualIff(recorded, r.staticIdxs, cleared, some);
  }

  /** A node that is accepted and replayed has every input from the path and every static input
      where it was recorded. */
  lemma ReplayedWhereRecorded(s0: State, fn: FunctionId, statics: seq<nat>, recorded: seq<Input>, run: ModelRun,
                              rerecord: bool, s: State, rest: Heap, now: seq<Input>, i: nat)
    requires var r := NewRecord(s0, fn, statics, recorded, run);
             CheckInvariants(rerecord, s, r, rest, now) == Success && (rerecord || StaticsStable(r, ClearAt(now, r.managed)))
    requires FromPath(s0, recorded, i) || i in statics
    ensures SameAddress(recorded, now, i)
  {
    RefusedForPointerIff(s0, fn, statics, recorded, run, rerecord, s, rest, now);
    StaticsStableIff(s0, fn, statics, recorded, run, now);
    SuccessComparesStatics(rerecord, s, NewRecord(s0, fn, statics, recorded, run), rest, now);
    RecordedPointers(s0, fn, statics, recorded, run, now);
    hide NewRecord;
    hide CheckInvariants;
    hide StaticsStable;
    hide PtrsEqual;
    hide FromPath;
    hide SameAddress;
  }

  lemma SuccessComparesStatics(rerecord: bool, s: State, r: GraphRecord, rest: Heap, now: seq<Input>)
    requires CheckInvariants(rerecord, s, r, rest, now) == Success
    ensures rerecord ==> PtrsEqual(now, r.staticPtrs, r.staticIdxs)
  {
  }

  // ---------------------------------------------------------------- acceptance

  /** The input is a tensor at the address that the node remembers. */
  predicate AtRecorded(r: GraphRecord, inputs: seq<Input>, i: nat) {
    i < |inputs| && i < |r.staticPtrs| && inputs[i].Tensor? && r.staticPtrs[i] == Some(inputs[i].data)
  }

  /** Some input that the tree manages is not at its recorded address. */
  predicate ManagedElsewhere(r: GraphRecord, inputs: seq<Input>) {
    exists k :: 0 <= k < |r.managed| && !AtRecorded(r, inputs, r.managed[k])
  }

  predicate StaticElsewhere(r: GraphRecord, inputs: seq<Input>) {
    exists k :: 0 <= k < |r.staticIdxs| && !AtRecorded(r, inputs, r.staticIdxs[k])
  }

  lemma ElsewhereIff(r: GraphRecord, inputs: seq<Input>)
    ensures ManagedElsewhere(r, inputs) <==> !PtrsEqual(inputs, r.staticPtrs, r.managed)
    ensures StaticElsewhere(r, inputs) <==> !PtrsEqual(inputs, r.staticPtrs, r.staticIdxs)
  {
  }

  /** What was live after the parent's recording and dead before the node's is dead. */
  ghost predicate DeadBefore(s: State, r: GraphRecord) {
    forall d: nat, i: nat :: AtGraphNode(s) && At(s.recs[s.current.value].after, d, i) && !At(r.before, d, i) ==>
      !LiveAt(s.heap, s.slots, CurPath(s), d, i)
  }

  /** What died during the node's recording is dead once its inputs are cleared. */
  ghost predicate DeadAfter(s: State, r: GraphRecord, rest: Heap, inputs: seq<Input>) {
    forall d: nat, i: nat :: At(r.before, d, i) && !At(r.after, d, i) ==>
      !LiveAt(HeapWith(rest, ClearAt(inputs, r.managed)), s.slots, CurPath(s), d, i)
  }

  /** A child is accepted exactly when no pointer moved and what was dead when it was recorded
      is dead now. */
  lemma AcceptedIff(rerecord: bool, s: State, id: GraphId, rest: Heap, inputs: seq<Input>)
    requires CanProbe(s, id, rest, inputs)
    ensures var r := s.recs[id];
            CheckInvariants(rerecord, s, r, rest, inputs) == Success <==>
            && !ManagedElsewhere(r, inputs) && (rerecord ==> !StaticElsewhere(r, inputs))
            && DeadBefore(s, r) && DeadAfter(s, r, rest, inputs)
  {
    var r := s.recs[id];
    ElsewhereIff(r, inputs);
    DeadBeforeIff(s, id, rest, inputs);
    DeadAfterIff(s, id, rest, inputs);
    hide ManagedElsewhere;
    hide StaticElsewhere;
    hide DeadBefore;
    hide DeadAfter;
    hide PtrsEqual;
    hide AllIndexedDead;
    hide CanProbe;
  }

  lemma DeadBeforeIff(s: State, id: GraphId, rest: Heap, inputs: seq<Input>)
    requires CanProbe(s, id, rest, inputs)
    ensures AllIndexedDead(s.heap, s.slots, s.recs[id].path, s.recs[id].deadBefore) <==> DeadBefore(s, s.recs[id])
  {
    ProbedRecord(s, id, rest, inputs);
    ParentPath(s, id, rest, inputs);
    RootHasNoParent(s, id, rest, inputs);
    hide CanProbe;
    var r := s.recs[id];
    forall d: nat, i: nat
      ensures PathIndex(d, i) in r.deadBefore <==>
              AtGraphNode(s) && At(s.recs[s.current.value].after, d, i) && !At(r.before, d, i)
      ensures PathIndex(d, i) in r.deadBefore ==>
                (LiveAt(s.heap, s.slots, r.path, d, i) <==> LiveAt(s.heap, s.slots, CurPath(s), d, i))
    {
      var p := PathIndex(d, i);
      assert p.depth == d && p.output == i;
      if AtGraphNode(s) && At(s.recs[s.current.value].after, d, i) {
        AfterWithin(s, id, rest, inputs, d, i);
        LiveOnLongerPath(s.heap, s.slots, CurPath(s), id, d, i);
      }
    }
    IndexedDeadIff(s.heap, s.slots, r.path, r.deadBefore);
    hide LiveAt;
    hide At;
  }

  lemma IndexedDeadIff(h: Heap, slots: Slots, path: seq<GraphId>, indices: seq<PathIndex>)
    ensures AllIndexedDead(h, slots, path, indices) <==>
            forall d: nat, i: nat :: PathIndex(d, i) in indices ==> !LiveAt(h, slots, path, d, i)
  {
    if forall d: nat, i: nat :: PathIndex(d, i) in indices ==> !LiveAt(h, slots, path, d, i) {
      forall k | 0 <= k < |indices|
        ensures !LiveAt(h, slots, path, indices[k].depth, indices[k].output)
      {
        assert PathIndex(indices[k].depth, indices[k].output) == indices[k];
      }
    }
  }

  lemma AfterWithin(s: State, id: GraphId, rest: Heap, inputs: seq<Input>, d: nat, i: nat)
    requires CanProbe(s, id, rest, inputs) && AtGraphNode(s) && At(s.recs[s.current.value].after, d, i)
    ensures d < |CurPath(s)|
  {
    assert RecordOk(s.recs, s.current.value);
  }

  lemma RootHasNoParent(s: State, id: GraphId, rest: Heap, inputs: seq<Input>)
    requires CanProbe(s, id, rest, inputs)
    ensures |CurPath(s)| > 0 <==> AtGraphNode(s)
  {
  }

  lemma DeadAfterIff(s: State, id: GraphId, rest: Heap, inputs: seq<Input>)
    requires CanProbe(s, id, rest, inputs)
    ensures AllIndexedDead(HeapWith(rest, ClearAt(inputs, s.recs[id].managed)), s.slots, s.recs[id].path, s.recs[id].deadAfter) <==>
            DeadAfter(s, s.recs[id], rest, inputs)
  {
    ProbedRecord(s, id, rest, inputs);
    var r := s.recs[id];
    var h := HeapWith(rest, ClearAt(inputs, r.managed));
    forall d: nat, i: nat
      ensures PathIndex(d, i) in r.deadAfter <==> At(r.before, d, i) && !At(r.after, d, i)
      ensures PathIndex(d, i) in r.deadAfter ==> (LiveAt(h, s.slots, r.path, d, i) <==> LiveAt(h, s.slots, CurPath(s), d, i))
    {
      var p := PathIndex(d, i);
      assert p.depth == d && p.output == i;
      LiveOnLongerPath(h, s.slots, CurPath(s), id, d, i);
      OwnOutputsStay(s, id, rest, inputs, h, d, i);
    }
    IndexedDeadIff(h, s.slots, r.path, r.deadAfter);
    hide CanProbe;
    hide LiveAt;
    hide At;
  }

  /** An output of the node itself that is live has a slot, and was live after the recording. */
  lemma OwnOutputsStay(s: State, id: GraphId, rest: Heap, inputs: seq<Input>, h: Heap, d: nat, i: nat)
    requires CanProbe(s, id, rest, inputs)
    ensures d >= |CurPath(s)| && LiveAt(h, s.slots, s.recs[id].path, d, i) ==> At(s.recs[id].after, d, i)
  {
    assert RecordOk(s.recs, id);
    assert NodeOk(s, id);
  }
}
