/** Recording keeps the manager's invariant. */
module RecordingProofs {
  import opened Options
  import opened Storages
  import opened PathIndices
  import opened TreeState
  import opened PathOps
  import opened Recordings

  // ---------------------------------------------------------------- classification

  lemma {:induction false} FirstLiveSpec(h: Heap, slots: Slots, path: seq<GraphId>, ix: seq<PathIndex>, from: nat, ptr: Addr)
    requires from <= |ix|
    ensures var r := FirstLive(h, slots, path, ix, from, ptr);
            && (r.Some? ==> LiveAt(h, slots, path, r.value.depth, r.value.output) &&
                            SlotAt(slots, path, r.value.depth, r.value.output).ptr == ptr)
            && (r.None? ==> forall k :: from <= k < |ix| && LiveAt(h, slots, path, ix[k].depth, ix[k].output) ==>
                              SlotAt(slots, path, ix[k].depth, ix[k].output).ptr != ptr)
    decreases |ix| - from
  {
    if from < |ix| {
      FirstLiveSpec(h, slots, path, ix, from + 1, ptr);
    }
  }

  /** The search finds a live output at the address exactly when there is one. */
  lemma AliasOfLiveSpec(h: Heap, slots: Slots, path: seq<GraphId>, ptr: Addr)
    ensures AliasOfLive(h, slots, path, ptr).Some? <==> LiveAddr(h, slots, path, ptr)
    ensures AliasOfLive(h, slots, path, ptr).Some? ==>
              var p := AliasOfLive(h, slots, path, ptr).value;
              LiveAt(h, slots, path, p.depth, p.output) && SlotAt(slots, path, p.depth, p.output).ptr == ptr
  {
    var ix := AllIndices(slots, path);
    FirstLiveSpec(h, slots, path, ix, 0, ptr);
    if LiveAddr(h, slots, path, ptr) {
      var d: nat, i: nat :| LiveAt(h, slots, path, d, i) && SlotAt(slots, path, d, i).ptr == ptr;
      AllIndicesMember(slots, path, PathIndex(d, i));
      var k :| 0 <= k < |ix| && ix[k] == PathIndex(d, i);
    }
  }

  lemma {:induction false} FirstNewSpec(outs: seq<Output>, n: nat, ptr: Addr)
    requires n <= |outs|
    ensures var r := FirstNew(outs, n, ptr);
            && (r.Some? ==> r.value < n && outs[r.value] == Tracked(ptr, Unaliased))
            && (r.None? ==> forall j :: 0 <= j < n ==> outs[j] != Tracked(ptr, Unaliased))
  {
    if n > 0 {
      FirstNewSpec(outs, n - 1, ptr);
    }
  }

  lemma {:induction false} ClassifyAt(h: Heap, slots: Slots, path: seq<GraphId>, run: ModelRun, n: nat, i: nat)
    requires i < n <= |run.outs|
    ensures Classify(h, slots, path, run, n)[..i] == Classify(h, slots, path, run, i)
    ensures Classify(h, slots, path, run, n)[i] ==
            ClassifyOne(h, slots, path, run.persistent, Classify(h, slots, path, run, i), run.outs[i])
  {
    if i < n - 1 {
      ClassifyAt(h, slots, path, run, n - 1, i);
    }
  }

  /** What classification establishes about output `i`. */
  ghost predicate Classified(h: Heap, slots: Slots, path: seq<GraphId>, run: ModelRun, outs: seq<Output>, i: nat)
    requires i < |outs| == |run.outs|
  {
    var o := run.outs[i];
    && (outs[i].NonTensor? <==> o.RawScalar?)
    && (outs[i].Tracked? <==> o.RawTensor? && o.ptr != 0 && o.ptr !in run.persistent)
    && (outs[i].Tracked? ==>
          && outs[i].ptr == o.ptr
          && (outs[i].alias.PriorOutput? <==> LiveAddr(h, slots, path, o.ptr))
          && (outs[i].alias.PriorOutput? ==>
                var p := outs[i].alias.index;
                LiveAt(h, slots, path, p.depth, p.output) && SlotAt(slots, path, p.depth, p.output).ptr == o.ptr)
          && (outs[i].alias.NewOutput? ==>
                outs[i].alias.position < i && outs[outs[i].alias.position] == Tracked(o.ptr, Unaliased))
          && (outs[i].alias.Unaliased? ==> forall j :: 0 <= j < i ==> outs[j] != Tracked(o.ptr, Unaliased)))
  }

  lemma ClassifiedAt(h: Heap, slots: Slots, path: seq<GraphId>, run: ModelRun, i: nat)
    requires i < |run.outs|
    ensures Classified(h, slots, path, run, Classify(h, slots, path, run, |run.outs|), i)
  {
    var outs := Classify(h, slots, path, run, |run.outs|);
    var prev := Classify(h, slots, path, run, i);
    ClassifyAt(h, slots, path, run, |run.outs|, i);
    assert forall j :: 0 <= j < i ==> outs[j] == prev[j];
    if run.outs[i].RawTensor? {
      AliasOfLiveSpec(h, slots, path, run.outs[i].ptr);
      FirstNewSpec(prev, i, run.outs[i].ptr);
    }
  }

  /** All outputs of the new recording are classified. */
  lemma RecordedClassified(s: State, run: ModelRun)
    ensures forall i: nat :: i < |run.outs| ==>
              Classified(HeapAfter(s, run), s.slots, CurPath(s), run, RecordedOuts(s, run), i)
  {
    forall i: nat | i < |run.outs|
      ensures Classified(HeapAfter(s, run), s.slots, CurPath(s), run, RecordedOuts(s, run), i)
    {
      ClassifiedAt(HeapAfter(s, run), s.slots, CurPath(s), run, i);
    }
  }

  // ---------------------------------------------------------------- the longer path

  /** What recording starts from. */
  ghost predicate CanRecord(s: State) {
    Sound(s) && Ready(s) && s.pathState != WarmingUp
  }

  lemma RecordPathShape(s: State)
    requires CanRecord(s)
    ensures s.nextGraph !in s.slots && s.nextGraph !in s.recs && s.nextGraph !in CurPath(s)
    ensures forall d :: 0 <= d < |CurPath(s)| ==> CurPath(s)[d] in s.recs && s.recs[CurPath(s)[d]].path == CurPath(s)[..d + 1]
    ensures s.current.Some? ==> AtGraphNode(s) && CurPath(s) == s.recs[s.current.value].path && |CurPath(s)| > 0
  {
    if s.current.Some? {
      assert AtGraphNode(s);
      assert RecordOk(s.recs, s.current.value);
    }
  }

  /** On the ancestors' rows nothing but the heap changed; the own row is live where tracked. */
  lemma RecordedLiveness(s: State, run: ModelRun, d: nat, i: nat)
    requires CanRecord(s) && RecordingRun(s, run)
    ensures var P := CurPath(s);
            && (d < |P| ==>
                  && (InPath(RecordedSlots(s, run), RecordPath(s), d, i) <==> InPath(s.slots, P, d, i))
                  && (InPath(s.slots, P, d, i) ==> SlotAt(RecordedSlots(s, run), RecordPath(s), d, i) == SlotAt(s.slots, P, d, i))
                  && (LiveAt(HeapAfter(s, run), RecordedSlots(s, run), RecordPath(s), d, i) <==> LiveAt(HeapAfter(s, run), s.slots, P, d, i)))
            && (d == |P| ==>
                  && (InPath(RecordedSlots(s, run), RecordPath(s), d, i) <==> i < |run.outs| && RecordedOuts(s, run)[i].Tracked?)
                  && (LiveAt(HeapAfter(s, run), RecordedSlots(s, run), RecordPath(s), d, i) <==> InPath(RecordedSlots(s, run), RecordPath(s), d, i))
                  && (InPath(RecordedSlots(s, run), RecordPath(s), d, i) ==>
                        run.outs[i].RawTensor? &&
                        SlotAt(RecordedSlots(s, run), RecordPath(s), d, i) == WeakRef(run.outs[i].storage, run.outs[i].ptr, false)))
            && (d > |P| ==> !InPath(RecordedSlots(s, run), RecordPath(s), d, i))
  {
    RecordPathShape(s);
    RecordedClassified(s, run);
    var P := CurPath(s);
    if d < |P| {
      assert RowAt(RecordedSlots(s, run), P[d]) == RowAt(s.slots, P[d]);
    } else if d == |P| && i < |run.outs| {
      assert Classified(HeapAfter(s, run), s.slots, P, run, RecordedOuts(s, run), i);
    }
  }

  lemma RecordedAfterAt(s: State, run: ModelRun, d: nat, i: nat)
    requires CanRecord(s) && RecordingRun(s, run)
    ensures At(RecordedAfter(s, run), d, i) <==>
            if d < |CurPath(s)| then LiveAt(HeapAfter(s, run), s.slots, CurPath(s), d, i)
            else d == |CurPath(s)| && i < |run.outs| && RecordedOuts(s, run)[i].Tracked?
  {
    LivenessOfAt(HeapAfter(s, run), RecordedSlots(s, run), RecordPath(s), d, i);
    RecordedLiveness(s, run, d, i);
  }

  lemma RecordBeforeAt(s: State, d: nat, i: nat)
    requires CanRecord(s)
    ensures At(RecordBefore(s), d, i) <==> LiveAt(s.heap, s.slots, CurPath(s), d, i)
  {
    RecordPathShape(s);
    LivenessOfAt(s.heap, s.slots, RecordPath(s), d, i);
    if d < |CurPath(s)| {
      assert RecordPath(s)[d] == CurPath(s)[d];
    } else if d == |CurPath(s)| {
      assert RowAt(s.slots, s.nextGraph) == [];
    }
  }

  // ---------------------------------------------------------------- storages and addresses

  /** A live storage of the path is the owner of its address, before and after. */
  lemma LiveOwner(s: State, run: ModelRun, d: nat, i: nat)
    requires Sound(s) && Ready(s) && PoolRun(s, run) && LiveAt(HeapAfter(s, run), s.slots, CurPath(s), d, i)
    ensures LiveAt(s.heap, s.slots, CurPath(s), d, i)
    ensures var w := SlotAt(s.slots, CurPath(s), d, i);
            && w.ptr in FreeDead(s.pool, HeapAfter(s, run)) && s.pool[w.ptr] == Some(w.storage)
            && w.storage < s.nextStorage && w.storage !in s.heap.cached
  {
    var h := HeapAfter(s, run);
    LivenessFalls(h, s.heap, s.slots, s.nextStorage, run.nextStorage, CurPath(s), d, i);
    FollowsTracking(h, s.heap, s.slots, s.nextStorage, run.nextStorage);
    LiveAtIsHeld(h, s.slots, CurPath(s), d, i);
    assert SlotIn(s.slots, CurPath(s)[d], i);
    assert Tracks(s.heap, s.slots[CurPath(s)[d]][i]);
  }

  /** A tracked output aliases the path exactly when its storage is on the path;
      otherwise it is new memory. */
  lemma TrackedOutput(s: State, run: ModelRun, i: nat)
    requires CanRecord(s) && RecordingRun(s, run) && i < |run.outs| && RecordedOuts(s, run)[i].Tracked?
    ensures run.outs[i].RawTensor? && RecordedOuts(s, run)[i].ptr == run.outs[i].ptr
    ensures RecordedOuts(s, run)[i].alias.PriorOutput? ==>
              run.outs[i].ptr in FreeDead(s.pool, HeapAfter(s, run)) && s.pool[run.outs[i].ptr] == Some(run.outs[i].storage) &&
              run.outs[i].storage < s.nextStorage && run.outs[i].storage !in s.heap.cached
    ensures !RecordedOuts(s, run)[i].alias.PriorOutput? ==> OutputIsNew(s, run, i)
  {
    RecordedClassified(s, run);
    var o := run.outs[i];
    var h := HeapAfter(s, run);
    assert Classified(h, s.slots, CurPath(s), run, RecordedOuts(s, run), i);
    if OutputOnPath(s, run, i) {
      var d: nat, j: nat :| LiveAt(h, s.slots, CurPath(s), d, j) &&
        SlotAt(s.slots, CurPath(s), d, j).storage == o.storage && SlotAt(s.slots, CurPath(s), d, j).ptr == o.ptr;
      LiveOwner(s, run, d, j);
      assert LiveAddr(h, s.slots, CurPath(s), o.ptr);
    } else if RecordedOuts(s, run)[i].alias.PriorOutput? {
      var p := RecordedOuts(s, run)[i].alias.index;
      LiveOwner(s, run, p.depth, p.output);
    }
  }

  /** Along the extended path equal addresses mean equal storages. */
  lemma RecordedOwner(s: State, run: ModelRun, d: nat, i: nat)
    requires CanRecord(s) && RecordingRun(s, run)
    requires LiveAt(HeapAfter(s, run), RecordedSlots(s, run), RecordPath(s), d, i)
    ensures var w := SlotAt(RecordedSlots(s, run), RecordPath(s), d, i);
            if w.ptr in FreeDead(s.pool, HeapAfter(s, run)) then s.pool[w.ptr] == Some(w.storage)
            else d == |CurPath(s)| && i < |run.outs| && run.outs[i] == RawTensor(w.storage, w.ptr) && OutputIsNew(s, run, i)
  {
    RecordedLiveness(s, run, d, i);
    if d < |CurPath(s)| {
      LiveOwner(s, run, d, i);
    } else {
      TrackedOutput(s, run, i);
    }
  }

  /** A live slot of the extended path is a live slot of the old one, or new. */
  lemma RecordedCounterpart(s: State, run: ModelRun, d: nat, i: nat)
    requires CanRecord(s) && RecordingRun(s, run)
    requires LiveAt(HeapAfter(s, run), RecordedSlots(s, run), RecordPath(s), d, i)
    ensures var w := SlotAt(RecordedSlots(s, run), RecordPath(s), d, i);
            || OldSlot(s, w)
            || (d == |CurPath(s)| && i < |run.outs| && run.outs[i] == RawTensor(w.storage, w.ptr) && OutputIsNew(s, run, i))
  {
    hide Sound;
    hide Ready;
    RecordedClassified(s, run);
    RecordedLiveness(s, run, d, i);
    if d < |CurPath(s)| {
      LiveOwner(s, run, d, i);
    } else {
      TrackedOutput(s, run, i);
      if OutputOnPath(s, run, i) {
        var e: nat, j: nat :| LiveAt(HeapAfter(s, run), s.slots, CurPath(s), e, j) &&
          SlotAt(s.slots, CurPath(s), e, j).storage == run.outs[i].storage && SlotAt(s.slots, CurPath(s), e, j).ptr == run.outs[i].ptr;
        LiveOwner(s, run, e, j);
        assert OldSlot(s, SlotAt(RecordedSlots(s, run), RecordPath(s), d, i));
      } else {
        assert Classified(HeapAfter(s, run), s.slots, CurPath(s), run, RecordedOuts(s, run), i);
        assert OutputIsNew(s, run, i);
      }
    }
  }

  /** The storage and address are those of a slot of the path that was live. */
  ghost predicate OldSlot(s: State, w: WeakRef) {
    exists d: nat, i: nat :: LiveAt(s.heap, s.slots, CurPath(s), d, i) &&
      SlotAt(s.slots, CurPath(s), d, i).storage == w.storage && SlotAt(s.slots, CurPath(s), d, i).ptr == w.ptr
  }

  lemma OldSlotsShare(s: State, v: WeakRef, w: WeakRef)
    requires CanRecord(s) && OldSlot(s, v) && OldSlot(s, w)
    ensures v.ptr == w.ptr <==> v.storage == w.storage
  {
    var d: nat, i: nat :| LiveAt(s.heap, s.slots, CurPath(s), d, i) &&
      SlotAt(s.slots, CurPath(s), d, i).storage == v.storage && SlotAt(s.slots, CurPath(s), d, i).ptr == v.ptr;
    var e: nat, j: nat :| LiveAt(s.heap, s.slots, CurPath(s), e, j) &&
      SlotAt(s.slots, CurPath(s), e, j).storage == w.storage && SlotAt(s.slots, CurPath(s), e, j).ptr == w.ptr;
    RecordPathShape(s);
    assert At(s.recs[s.current.value].after, d, i) && At(s.recs[s.current.value].after, e, j);
  }

  lemma OldSlotBelow(s: State, run: ModelRun, w: WeakRef)
    requires CanRecord(s) && PoolRun(s, run) && OldSlot(s, w)
    ensures w.storage < s.nextStorage
    ensures Held(HeapAfter(s, run), w.storage) ==> w.ptr in FreeDead(s.pool, HeapAfter(s, run))
  {
    CanRecordTracks(s);
    hide CanRecord;
    hide PoolRun;
    var d: nat, i: nat :| LiveAt(s.heap, s.slots, CurPath(s), d, i) &&
      SlotAt(s.slots, CurPath(s), d, i).storage == w.storage && SlotAt(s.slots, CurPath(s), d, i).ptr == w.ptr;
    hide CurPath;
    LiveSlotKept(s.heap, s.slots, CurPath(s), s.pool, s.nextStorage, HeapAfter(s, run), d, i);
  }

  lemma LiveSlotKept(h: Heap, slots: Slots, path: seq<GraphId>, pool: Pool, n: StorageId, h': Heap, d: nat, i: nat)
    requires StoragesBelow(h, slots, n) && PoolExact(pool, h, slots, path) && LiveAt(h, slots, path, d, i)
    ensures var w := SlotAt(slots, path, d, i);
            w.storage < n && (Held(h', w.storage) ==> w.ptr in FreeDead(pool, h'))
  {
    assert SlotIn(slots, path[d], i);
  }

  lemma CanRecordTracks(s: State)
    requires CanRecord(s)
    ensures StoragesBelow(s.heap, s.slots, s.nextStorage) && PoolExact(s.pool, s.heap, s.slots, CurPath(s))
  {
  }

  /** Along the extended path equal addresses mean equal storages and conversely. */
  lemma RecordedSameStorage(s: State, run: ModelRun)
    requires CanRecord(s) && RecordingRun(s, run)
    ensures SameStorage(RecordedSlots(s, run), RecordPath(s), RecordedAfter(s, run))
  {
    var slots, path, h := RecordedSlots(s, run), RecordPath(s), HeapAfter(s, run);
    forall d: nat, i: nat, e: nat, j: nat |
      At(RecordedAfter(s, run), d, i) && At(RecordedAfter(s, run), e, j) && InPath(slots, path, d, i) && InPath(slots, path, e, j)
      ensures SlotAt(slots, path, d, i).ptr == SlotAt(slots, path, e, j).ptr <==>
              SlotAt(slots, path, d, i).storage == SlotAt(slots, path, e, j).storage
    {
      LivenessOfAt(h, slots, path, d, i);
      LivenessOfAt(h, slots, path, e, j);
      RecordedPair(s, run, d, i, e, j);
    }
  }

  lemma RecordedPair(s: State, run: ModelRun, d: nat, i: nat, e: nat, j: nat)
    requires CanRecord(s) && RecordingRun(s, run)
    requires LiveAt(HeapAfter(s, run), RecordedSlots(s, run), RecordPath(s), d, i)
    requires LiveAt(HeapAfter(s, run), RecordedSlots(s, run), RecordPath(s), e, j)
    ensures SlotAt(RecordedSlots(s, run), RecordPath(s), d, i).ptr == SlotAt(RecordedSlots(s, run), RecordPath(s), e, j).ptr <==>
            SlotAt(RecordedSlots(s, run), RecordPath(s), d, i).storage == SlotAt(RecordedSlots(s, run), RecordPath(s), e, j).storage
  {
    var v, w := SlotAt(RecordedSlots(s, run), RecordPath(s), d, i), SlotAt(RecordedSlots(s, run), RecordPath(s), e, j);
    RecordedCounterpart(s, run, d, i);
    RecordedCounterpart(s, run, e, j);
    RecordedOwner(s, run, d, i);
    RecordedOwner(s, run, e, j);
    if OldSlot(s, v) {
      OldSlotBelow(s, run, v);
    }
    if OldSlot(s, w) {
      OldSlotBelow(s, run, w);
    }
    if OldSlot(s, v) && OldSlot(s, w) {
      OldSlotsShare(s, v, w);
    }
  }

  lemma {:induction false} AllocateSpec(pool: Pool, outs: seq<Output>, raws: seq<RawOutput>, n: nat, a: Addr)
    requires n <= |outs| == |raws|
    requires forall i :: 0 <= i < |outs| && outs[i].Tracked? ==> raws[i].RawTensor? && raws[i].ptr == outs[i].ptr
    requires forall i, j :: 0 <= i < j < |outs| && outs[i].Tracked? && outs[j].Tracked? && outs[j].alias.Unaliased? ==> outs[i].ptr != outs[j].ptr
    ensures a in Allocate(pool, outs, raws, n) <==>
            a in pool || exists i :: 0 <= i < n && outs[i].Tracked? && outs[i].alias.Unaliased? && outs[i].ptr == a
    ensures (forall i :: 0 <= i < n && outs[i].Tracked? && outs[i].alias.Unaliased? ==> outs[i].ptr != a) && a in pool ==>
            Allocate(pool, outs, raws, n)[a] == pool[a]
    ensures forall i :: 0 <= i < n && outs[i].Tracked? && outs[i].alias.Unaliased? && outs[i].ptr == a ==>
            Allocate(pool, outs, raws, n)[a] == Some(raws[i].storage)
  {
    if n > 0 {
      AllocateSpec(pool, outs, raws, n - 1, a);
    }
  }

  /** An output that introduced its address is the first with it. */
  lemma UnaliasedIsFirst(s: State, run: ModelRun, i: nat, j: nat)
    requires i < j < |run.outs|
    requires RecordedOuts(s, run)[i].Tracked? && RecordedOuts(s, run)[j].Tracked? && RecordedOuts(s, run)[j].alias.Unaliased?
    ensures RecordedOuts(s, run)[i].ptr != RecordedOuts(s, run)[j].ptr
  {
    var outs := RecordedOuts(s, run);
    RecordedClassified(s, run);
    assert Classified(HeapAfter(s, run), s.slots, CurPath(s), run, outs, i);
    assert Classified(HeapAfter(s, run), s.slots, CurPath(s), run, outs, j);
    if outs[i].alias.NewOutput? {
      var k := outs[i].alias.position;
      assert outs[k] == Tracked(outs[i].ptr, Unaliased) && outs[k] != Tracked(outs[j].ptr, Unaliased);
    }
  }

  /** The pool after the recording: what stayed allocated, and the new outputs. */
  lemma RecordedPoolSpec(s: State, run: ModelRun, a: Addr)
    requires CanRecord(s) && RecordingRun(s, run)
    ensures a in RecordedPool(s, run) <==>
            a in FreeDead(s.pool, HeapAfter(s, run)) ||
            exists i :: 0 <= i < |run.outs| && RecordedOuts(s, run)[i].Tracked? && RecordedOuts(s, run)[i].alias.Unaliased? && RecordedOuts(s, run)[i].ptr == a
    ensures a in FreeDead(s.pool, HeapAfter(s, run)) ==> RecordedPool(s, run)[a] == s.pool[a]
    ensures forall i :: 0 <= i < |run.outs| && RecordedOuts(s, run)[i].Tracked? && RecordedOuts(s, run)[i].alias.Unaliased? && RecordedOuts(s, run)[i].ptr == a ==>
            run.outs[i].RawTensor? && RecordedPool(s, run)[a] == Some(run.outs[i].storage)
  {
    var outs := RecordedOuts(s, run);
    forall i | 0 <= i < |outs| && outs[i].Tracked?
      ensures run.outs[i].RawTensor? && run.outs[i].ptr == outs[i].ptr
      ensures outs[i].alias.Unaliased? ==> outs[i].ptr !in FreeDead(s.pool, HeapAfter(s, run))
    {
      TrackedOutput(s, run, i);
    }
    forall i, j | 0 <= i < j < |outs| && outs[i].Tracked? && outs[j].Tracked? && outs[j].alias.Unaliased?
      ensures outs[i].ptr != outs[j].ptr
    {
      UnaliasedIsFirst(s, run, i, j);
    }
    AllocateSpec(FreeDead(s.pool, HeapAfter(s, run)), outs, run.outs, |outs|, a);
  }

  /** Every new output's address was introduced by an unaliased output with the same storage. */
  lemma NewOutputOwner(s: State, run: ModelRun, i: nat)
    requires CanRecord(s) && RecordingRun(s, run) && i < |run.outs| && RecordedOuts(s, run)[i].Tracked?
    requires !RecordedOuts(s, run)[i].alias.PriorOutput?
    ensures run.outs[i].RawTensor? && run.outs[i].ptr in RecordedPool(s, run)
    ensures RecordedPool(s, run)[run.outs[i].ptr] == Some(run.outs[i].storage)
  {
    var outs := RecordedOuts(s, run);
    TrackedOutput(s, run, i);
    RecordedClassified(s, run);
    assert Classified(HeapAfter(s, run), s.slots, CurPath(s), run, outs, i);
    RecordedPoolSpec(s, run, run.outs[i].ptr);
    if outs[i].alias.NewOutput? {
      TrackedOutput(s, run, outs[i].alias.position);
    }
  }

  lemma RecordedPoolOwnsLive(s: State, run: ModelRun, d: nat, i: nat)
    requires CanRecord(s) && RecordingRun(s, run)
    requires LiveAt(HeapAfter(s, run), RecordedSlots(s, run), RecordPath(s), d, i)
    ensures var w := SlotAt(RecordedSlots(s, run), RecordPath(s), d, i);
            w.ptr in RecordedPool(s, run) && RecordedPool(s, run)[w.ptr] == Some(w.storage)
  {
    RecordedLiveness(s, run, d, i);
    if d < |CurPath(s)| {
      LiveOwner(s, run, d, i);
      RecordedPoolSpec(s, run, SlotAt(s.slots, CurPath(s), d, i).ptr);
    } else {
      TrackedOutput(s, run, i);
      RecordedPoolSpec(s, run, run.outs[i].ptr);
      if !RecordedOuts(s, run)[i].alias.PriorOutput? {
        NewOutputOwner(s, run, i);
      }
    }
  }

  lemma RecordedPoolIsLive(s: State, run: ModelRun, a: Addr)
    requires CanRecord(s) && RecordingRun(s, run) && a in RecordedPool(s, run)
    ensures LiveAddr(HeapAfter(s, run), RecordedSlots(s, run), RecordPath(s), a)
  {
    var h := HeapAfter(s, run);
    RecordedPoolSpec(s, run, a);
    if a in FreeDead(s.pool, h) {
      FollowsTracking(h, s.heap, s.slots, s.nextStorage, run.nextStorage);
      KeptBlockIsLive(s.pool, s.heap, h, s.slots, CurPath(s), a);
      var d: nat, i: nat :| LiveAt(h, s.slots, CurPath(s), d, i) && SlotAt(s.slots, CurPath(s), d, i).ptr == a;
      RecordedLiveness(s, run, d, i);
    } else {
      var i :| 0 <= i < |run.outs| && RecordedOuts(s, run)[i].Tracked? && RecordedOuts(s, run)[i].alias.Unaliased? && RecordedOuts(s, run)[i].ptr == a;
      RecordedLiveness(s, run, |CurPath(s)|, i);
      TrackedOutput(s, run, i);
    }
  }

  lemma RecordedPoolExact(s: State, run: ModelRun)
    requires CanRecord(s) && RecordingRun(s, run)
    ensures PoolExact(RecordedPool(s, run), HeapAfter(s, run), RecordedSlots(s, run), RecordPath(s))
  {
    forall d: nat, i: nat | LiveAt(HeapAfter(s, run), RecordedSlots(s, run), RecordPath(s), d, i)
      ensures var w := SlotAt(RecordedSlots(s, run), RecordPath(s), d, i);
              w.ptr in RecordedPool(s, run) && RecordedPool(s, run)[w.ptr] == Some(w.storage)
    {
      RecordedPoolOwnsLive(s, run, d, i);
    }
    forall a | a in RecordedPool(s, run)
      ensures LiveAddr(HeapAfter(s, run), RecordedSlots(s, run), RecordPath(s), a)
    {
      RecordedPoolIsLive(s, run, a);
    }
  }

  // ---------------------------------------------------------------- the new record

  ghost predicate Grows(recs: map<GraphId, GraphRecord>, recs': map<GraphId, GraphRecord>) {
    forall id :: id in recs ==> id in recs' && recs'[id] == recs[id]
  }

  lemma PathOkGrows(recs: map<GraphId, GraphRecord>, recs': map<GraphId, GraphRecord>, id: GraphId)
    requires Grows(recs, recs') && id in recs && PathOk(recs, id)
    ensures PathOk(recs', id)
    ensures forall d: nat, i: nat :: TrackedAt(recs', recs[id].path, d, i) <==> TrackedAt(recs, recs[id].path, d, i)
    ensures forall d: nat, i: nat :: TrackedAt(recs, recs[id].path, d, i) ==>
              PtrAt(recs', recs[id].path, d, i) == PtrAt(recs, recs[id].path, d, i)
    ensures forall d :: 0 <= d < |recs[id].path| ==> recs'[recs[id].path[d]] == recs[recs[id].path[d]]
  {
    var p := recs[id].path;
    assert recs'[id] == recs[id];
    forall d | 0 <= d < |p|
      ensures p[d] in recs && p[d] in recs' && recs'[p[d]] == recs[p[d]] && recs'[p[d]].path == p[..d + 1]
    {
      var node := p[d];
      assert node in recs;
    }
  }

  /** A recording's facts do not depend on nodes added later. */
  lemma RecordOkGrows(recs: map<GraphId, GraphRecord>, recs': map<GraphId, GraphRecord>, id: GraphId)
    requires Grows(recs, recs') && id in recs && RecordOk(recs, id)
    ensures RecordOk(recs', id)
  {
    PathOkGrows(recs, recs', id);
    forall i: nat | i < |recs[id].outs| && recs[id].outs[i].Tracked?
      ensures AliasOk(recs', id, i)
    {
      assert AliasOk(recs, id, i);
    }
    MemoryOkGrows(recs, recs', id);
  }

  lemma MemoryOkGrows(recs: map<GraphId, GraphRecord>, recs': map<GraphId, GraphRecord>, id: GraphId)
    requires Grows(recs, recs') && id in recs && PathOk(recs, id) && MemoryOk(recs, id)
    ensures PathOk(recs', id) && MemoryOk(recs', id)
  {
    PathOkGrows(recs, recs', id);
    var r := recs[id];
    forall a | a in r.checkpoint
      ensures exists d: nat, i: nat :: At(r.after, d, i) && TrackedAt(recs', r.path, d, i) && PtrAt(recs', r.path, d, i) == a
    {
      var d: nat, i: nat :| At(r.after, d, i) && TrackedAt(recs, r.path, d, i) && PtrAt(recs, r.path, d, i) == a;
      assert TrackedAt(recs', r.path, d, i);
    }
  }

  /** `recs` is the old table with the record of the new node. */
  ghost predicate Extended(s: State, run: ModelRun, recs: map<GraphId, GraphRecord>) {
    && Grows(s.recs, recs) && s.nextGraph in recs
    && (forall id :: id in recs ==> id in s.recs || id == s.nextGraph)
    && var r := recs[s.nextGraph];
    && r.path == RecordPath(s) && r.outs == RecordedOuts(s, run)
    && r.before == RecordBefore(s) && r.after == RecordedAfter(s, run)
    && r.deadBefore == RecordDeadBefore(s)
    && r.deadAfter == DifferentIndices(RecordBefore(s), LivenessOf(HeapAfter(s, run), s.slots, RecordPath(s)))
    && r.liveAfter == TrueIndices(r.after, |r.after|)
    && r.checkpoint == RecordedPool(s, run).Keys && r.scratch == run.scratch
  }

  /** The recorded address of a slot of the extended path. */
  lemma RecordedPtr(s: State, run: ModelRun, recs: map<GraphId, GraphRecord>, d: nat, i: nat)
    requires CanRecord(s) && RecordingRun(s, run) && Extended(s, run, recs)
    ensures TrackedAt(recs, RecordPath(s), d, i) <==> InPath(RecordedSlots(s, run), RecordPath(s), d, i)
    ensures TrackedAt(recs, RecordPath(s), d, i) ==>
              PtrAt(recs, RecordPath(s), d, i) == SlotAt(RecordedSlots(s, run), RecordPath(s), d, i).ptr
  {
    RecordPathShape(s);
    RecordedLiveness(s, run, d, i);
    if d < |CurPath(s)| {
      var id := CurPath(s)[d];
      assert id in s.recs && recs[id] == s.recs[id];
      assert NodeOk(s, id);
    } else if d == |CurPath(s)| && i < |run.outs| {
      RecordedClassified(s, run);
      assert Classified(HeapAfter(s, run), s.slots, CurPath(s), run, RecordedOuts(s, run), i);
    }
  }

  lemma LongerPathOk(before: map<GraphId, GraphRecord>, recs: map<GraphId, GraphRecord>, path: seq<GraphId>, id: GraphId)
    requires Grows(before, recs) && id in recs && recs[id].path == path + [id]
    requires forall d :: 0 <= d < |path| ==> path[d] in before && before[path[d]].path == path[..d + 1]
    ensures PathOk(recs, id)
  {
    var p := path + [id];
    forall d | 0 <= d < |p|
      ensures p[d] in recs && recs[p[d]].path == p[..d + 1]
    {
      if d < |path| {
        var node := path[d];
        assert node in before;
        assert p[..d + 1] == path[..d + 1];
      } else {
        assert p[..d + 1] == p;
      }
    }
  }

  lemma RecordedPathOk(s: State, run: ModelRun, recs: map<GraphId, GraphRecord>)
    requires CanRecord(s) && Extended(s, run, recs)
    ensures PathOk(recs, s.nextGraph)
  {
    RecordPathShape(s);
    LongerPathOk(s.recs, recs, CurPath(s), s.nextGraph);
  }

  lemma RecordedAfterShape(s: State, run: ModelRun, recs: map<GraphId, GraphRecord>, d: nat)
    requires CanRecord(s) && Extended(s, run, recs) && PathOk(recs, s.nextGraph) && d <= |CurPath(s)|
    ensures |RecordedAfter(s, run)| == |CurPath(s)| + 1
    ensures |RecordedAfter(s, run)[d]| == |recs[RecordPath(s)[d]].outs|
  {
    RecordPathShape(s);
    if d < |CurPath(s)| {
      var node := CurPath(s)[d];
      assert node in s.recs;
      assert NodeOk(s, node);
    }
  }

  lemma RecordedAfterWithin(s: State, run: ModelRun, recs: map<GraphId, GraphRecord>, d: nat, i: nat)
    requires CanRecord(s) && RecordingRun(s, run) && Extended(s, run, recs) && At(RecordedAfter(s, run), d, i)
    ensures TrackedAt(recs, RecordPath(s), d, i)
    ensures d < |CurPath(s)| ==> At(RecordBefore(s), d, i)
  {
    hide Sound;
    hide Ready;
    LivenessOfAt(HeapAfter(s, run), RecordedSlots(s, run), RecordPath(s), d, i);
    RecordedPtr(s, run, recs, d, i);
    RecordedAfterAt(s, run, d, i);
    if d < |CurPath(s)| {
      LiveOwner(s, run, d, i);
      RecordBeforeAt(s, d, i);
    }
  }

  lemma RecordedTablesOk(s: State, run: ModelRun, recs: map<GraphId, GraphRecord>)
    requires CanRecord(s) && RecordingRun(s, run) && Extended(s, run, recs) && PathOk(recs, s.nextGraph)
    ensures TablesOk(recs, s.nextGraph)
  {
    hide Sound;
    hide Ready;
    hide RecordingRun;
    hide RecordedAfter;
    hide RecordBefore;
    hide RecordedOuts;
    var r := recs[s.nextGraph];
    var k := |CurPath(s)|;
    RecordedAfterShape(s, run, recs, 0);
    forall d: nat | d <= k
      ensures |r.after[d]| == |recs[r.path[d]].outs|
    {
      RecordedAfterShape(s, run, recs, d);
    }
    forall d: nat, i: nat | At(r.after, d, i)
      ensures TrackedAt(recs, r.path, d, i)
      ensures d < k ==> At(r.before, d, i)
    {
      RecordedAfterWithin(s, run, recs, d, i);
    }
    forall i: nat | i < |r.outs| && r.outs[i].Tracked?
      ensures At(r.after, k, i)
    {
      RecordedAfterAt(s, run, k, i);
    }
    if k > 0 {
      RecordedBeforeWithin(s, run, recs);
    }
  }

  /** What is live before the recording was live when the parent's ended. */
  lemma RecordedBeforeWithin(s: State, run: ModelRun, recs: map<GraphId, GraphRecord>)
    requires CanRecord(s) && Extended(s, run, recs) && |CurPath(s)| > 0
    ensures AtGraphNode(s) && RecordPath(s)[|CurPath(s)| - 1] == s.current.value
    ensures s.current.value in recs && recs[s.current.value] == s.recs[s.current.value]
    ensures forall d: nat, i: nat :: At(RecordBefore(s), d, i) ==> At(recs[s.current.value].after, d, i)
  {
    RecordPathShape(s);
    forall d: nat, i: nat | At(RecordBefore(s), d, i)
      ensures At(s.recs[s.current.value].after, d, i)
    {
      RecordBeforeAt(s, d, i);
    }
  }

  lemma BeforeComparable(s: State)
    requires CanRecord(s)
    ensures AtGraphNode(s) ==> Comparable(s.recs[s.current.value].after, RecordBefore(s))
  {
    RecordPathShape(s);
    if AtGraphNode(s) {
      var after := s.recs[s.current.value].after;
      assert RecordOk(s.recs, s.current.value);
      forall d | 0 <= d < |after|
        ensures |after[d]| == |RecordBefore(s)[d]|
      {
        assert NodeOk(s, CurPath(s)[d]);
      }
    }
  }

  lemma RecordedComparable(s: State, run: ModelRun)
    requires CanRecord(s)
    ensures Comparable(RecordBefore(s), LivenessOf(HeapAfter(s, run), s.slots, RecordPath(s)))
    ensures AtGraphNode(s) ==> Comparable(s.recs[s.current.value].after, RecordBefore(s))
  {
    RecordPathShape(s);
    BeforeComparable(s);
  }

  lemma RecordedDeadBefore(s: State, run: ModelRun, recs: map<GraphId, GraphRecord>, p: PathIndex)
    requires CanRecord(s) && Extended(s, run, recs)
    ensures p in RecordDeadBefore(s) <==>
            |CurPath(s)| > 0 && At(recs[RecordPath(s)[|CurPath(s)| - 1]].after, p.depth, p.output) && !At(RecordBefore(s), p.depth, p.output)
  {
    RecordPathShape(s);
    if |CurPath(s)| > 0 {
      RecordedComparable(s, run);
      RecordedBeforeWithin(s, run, recs);
      DifferentIndicesMember(s.recs[s.current.value].after, RecordBefore(s), p);
    }
  }

  lemma RecordedDeadAfter(s: State, run: ModelRun, p: PathIndex)
    requires CanRecord(s) && RecordingRun(s, run)
    ensures p in DifferentIndices(RecordBefore(s), LivenessOf(HeapAfter(s, run), s.slots, RecordPath(s))) <==>
            At(RecordBefore(s), p.depth, p.output) && !At(RecordedAfter(s, run), p.depth, p.output)
  {
    var mid := LivenessOf(HeapAfter(s, run), s.slots, RecordPath(s));
    RecordPathShape(s);
    RecordedComparable(s, run);
    DifferentIndicesMember(RecordBefore(s), mid, p);
    LivenessOfAt(HeapAfter(s, run), s.slots, RecordPath(s), p.depth, p.output);
    RecordedAfterAt(s, run, p.depth, p.output);
    RecordBeforeAt(s, p.depth, p.output);
    if p.depth < |CurPath(s)| {
      assert RecordPath(s)[p.depth] == CurPath(s)[p.depth];
      if LiveAt(HeapAfter(s, run), s.slots, CurPath(s), p.depth, p.output) {
        LiveOwner(s, run, p.depth, p.output);
      }
    }
  }

  lemma RecordedIndicesOk(s: State, run: ModelRun, recs: map<GraphId, GraphRecord>)
    requires CanRecord(s) && RecordingRun(s, run) && Extended(s, run, recs) && PathOk(recs, s.nextGraph)
    ensures IndicesOk(recs, s.nextGraph)
  {
    var r := recs[s.nextGraph];
    forall p: PathIndex
      ensures p in r.deadBefore <==>
              |CurPath(s)| > 0 && At(recs[RecordPath(s)[|CurPath(s)| - 1]].after, p.depth, p.output) && !At(RecordBefore(s), p.depth, p.output)
      ensures p in r.deadAfter <==> At(r.before, p.depth, p.output) && !At(r.after, p.depth, p.output)
      ensures p in r.liveAfter <==> At(r.after, p.depth, p.output)
    {
      RecordedDeadBefore(s, run, recs, p);
      RecordedDeadAfter(s, run, p);
      TrueIndicesMember(r.after, |r.after|, p);
    }
  }

  lemma RecordedAliasOk(s: State, run: ModelRun, recs: map<GraphId, GraphRecord>, i: nat)
    requires CanRecord(s) && RecordingRun(s, run) && Extended(s, run, recs) && PathOk(recs, s.nextGraph)
    requires i < |run.outs| && RecordedOuts(s, run)[i].Tracked?
    ensures AliasOk(recs, s.nextGraph, i)
  {
    var r := recs[s.nextGraph];
    var h := HeapAfter(s, run);
    RecordedClassified(s, run);
    assert Classified(h, s.slots, CurPath(s), run, r.outs, i);
    match r.outs[i].alias
    case PriorOutput(p) =>
      RecordedAfterAt(s, run, p.depth, p.output);
      RecordedLiveness(s, run, p.depth, p.output);
      RecordedPtr(s, run, recs, p.depth, p.output);
    case NewOutput(j) =>
    case Unaliased =>
      forall d: nat, j: nat | d < |CurPath(s)| && At(r.after, d, j) && TrackedAt(recs, r.path, d, j)
        ensures PtrAt(recs, r.path, d, j) != r.outs[i].ptr
      {
        RecordedAfterAt(s, run, d, j);
        RecordedLiveness(s, run, d, j);
        RecordedPtr(s, run, recs, d, j);
      }
      forall j | 0 <= j < i && r.outs[j].Tracked?
        ensures r.outs[j].ptr != r.outs[i].ptr
      {
        UnaliasedIsFirst(s, run, j, i);
      }
  }

  lemma RecordedMemoryOk(s: State, run: ModelRun, recs: map<GraphId, GraphRecord>)
    requires CanRecord(s) && RecordingRun(s, run) && Extended(s, run, recs) && PathOk(recs, s.nextGraph)
    ensures MemoryOk(recs, s.nextGraph)
  {
    var r := recs[s.nextGraph];
    var h := HeapAfter(s, run);
    forall a | a in r.checkpoint
      ensures exists d: nat, i: nat :: At(r.after, d, i) && TrackedAt(recs, r.path, d, i) && PtrAt(recs, r.path, d, i) == a
    {
      RecordedPoolIsLive(s, run, a);
      var d: nat, i: nat :| LiveAt(h, RecordedSlots(s, run), RecordPath(s), d, i) && SlotAt(RecordedSlots(s, run), RecordPath(s), d, i).ptr == a;
      LivenessOfAt(h, RecordedSlots(s, run), RecordPath(s), d, i);
      RecordedPtr(s, run, recs, d, i);
    }
    forall d: nat, i: nat | At(r.after, d, i) && TrackedAt(recs, r.path, d, i)
      ensures PtrAt(recs, r.path, d, i) in r.checkpoint
      ensures d < |CurPath(s)| ==> PtrAt(recs, r.path, d, i) !in r.scratch
    {
      LivenessOfAt(h, RecordedSlots(s, run), RecordPath(s), d, i);
      RecordedPtr(s, run, recs, d, i);
      RecordedPoolOwnsLive(s, run, d, i);
      RecordedLiveness(s, run, d, i);
      if d < |CurPath(s)| {
        LiveOwner(s, run, d, i);
      }
    }
    forall i: nat | i < |r.outs| && r.outs[i].Tracked? && !r.outs[i].alias.PriorOutput?
      ensures r.outs[i].ptr in r.scratch
    {
      TrackedOutput(s, run, i);
    }
  }

  /** The facts of every recording, the new one included. */
  lemma RecordedRecordsOk(s: State, run: ModelRun, recs: map<GraphId, GraphRecord>)
    requires CanRecord(s) && RecordingRun(s, run) && Extended(s, run, recs)
    ensures RecordsOk(recs)
  {
    forall id | id in recs
      ensures RecordOk(recs, id)
    {
      if id == s.nextGraph {
        RecordedPathOk(s, run, recs);
        RecordedTablesOk(s, run, recs);
        RecordedIndicesOk(s, run, recs);
        forall i: nat | i < |recs[id].outs| && recs[id].outs[i].Tracked?
          ensures AliasOk(recs, id, i)
        {
          RecordedAliasOk(s, run, recs, i);
        }
        RecordedMemoryOk(s, run, recs);
      } else {
        RecordOkGrows(s.recs, recs, id);
      }
    }
  }

  // ---------------------------------------------------------------- the tables

  lemma RecordExtends(s: State, fn: FunctionId, statics: seq<nat>, inputs: seq<Input>, run: ModelRun)
    requires CanRecord(s)
    ensures Extended(s, run, Record(s, fn, statics, inputs, run).recs)
  {
    RecordPathShape(s);
  }

  lemma MarkedFlag(s: State, outs: seq<Output>, id: GraphId, i: nat)
    requires id in s.unaliased
    ensures var m := MarkAliased(s.unaliased, CurPath(s), outs);
            id in m && |m[id]| == |s.unaliased[id]| &&
            (FlagAt(m, id, i) <==> FlagAt(s.unaliased, id, i) && !AliasesPrior(CurPath(s), outs, id, i))
  {
  }

  /** A node that is on no position of the path keeps its flags; one that is has no cache. */
  lemma MarkedNodeOk(s: State, outs: seq<Output>, id: GraphId)
    requires Ready(s) && id in s.recs && NodeOk(s, id)
    ensures var flags := MarkAliased(s.unaliased, CurPath(s), outs)[id];
            FlagsMatch(s.recs[id].outs, flags) && CacheMatches(flags, s.slots[id], s.caches[id])
  {
    var flags := MarkAliased(s.unaliased, CurPath(s), outs)[id];
    if id in CurPath(s) {
      var d :| 0 <= d < |CurPath(s)| && CurPath(s)[d] == id;
      assert s.caches[id] == [];
    } else {
      assert flags == s.unaliased[id];
    }
  }

  lemma OwnRowMatches(h: Heap, slots: Slots, path: seq<GraphId>, run: ModelRun, outs: seq<Output>)
    requires |outs| == |run.outs| && forall i: nat :: i < |outs| ==> Classified(h, slots, path, run, outs, i)
    ensures RowMatches(outs, OwnRow(outs, run.outs))
    ensures FlagsMatch(outs, OwnFlags(outs))
    ensures CacheMatches(OwnFlags(outs), OwnRow(outs, run.outs), [])
  {
    forall i | 0 <= i < |outs|
      ensures outs[i].Tracked? ==> run.outs[i].RawTensor? && run.outs[i].ptr == outs[i].ptr
    {
      assert Classified(h, slots, path, run, outs, i);
    }
  }

  lemma RecordNodesOk(s: State, fn: FunctionId, statics: seq<nat>, inputs: seq<Input>, run: ModelRun)
    requires CanRecord(s)
    ensures NodesOk(Record(s, fn, statics, inputs, run))
  {
    var t := Record(s, fn, statics, inputs, run);
    var outs := RecordedOuts(s, run);
    RecordPathShape(s);
    RecordedClassified(s, run);
    OwnRowMatches(HeapAfter(s, run), s.slots, CurPath(s), run, outs);
    assert NodeOk(t, s.nextGraph);
    forall id | id in s.recs
      ensures NodeOk(t, id)
    {
      assert NodeOk(s, id);
      MarkedNodeOk(s, outs, id);
    }
  }

  lemma RecordIdsOk(s: State, fn: FunctionId, statics: seq<nat>, inputs: seq<Input>, run: ModelRun)
    requires CanRecord(s)
    ensures IdsOk(Record(s, fn, statics, inputs, run))
  {
    hide RecordsOk;
    hide NodesOk;
    hide TrackingOk;
    hide FlagsIn;
    hide ChildrenIn;
    hide CurrentOk;
    hide PathLiveOk;
    hide Ready;
    hide NewRecord;
    hide OwnRow;
    hide RecordedOuts;
    hide RecordedPool;
  }

  /** A slot after recording is an old one, or one of the new row. */
  lemma RecordedSlot(s: State, run: ModelRun, id: GraphId, i: nat)
    requires CanRecord(s) && RecordingRun(s, run) && SlotIn(RecordedSlots(s, run), id, i)
    ensures if id == s.nextGraph
            then i < |run.outs| && RecordedOuts(s, run)[i].Tracked? && run.outs[i].RawTensor? &&
                 RecordedSlots(s, run)[id][i] == Some(WeakRef(run.outs[i].storage, run.outs[i].ptr, false))
            else SlotIn(s.slots, id, i) && RecordedSlots(s, run)[id][i] == s.slots[id][i]
  {
  }

  lemma RecordedSlotTracks(s: State, run: ModelRun, id: GraphId, i: nat)
    requires CanRecord(s) && RecordingRun(s, run) && SlotIn(RecordedSlots(s, run), id, i)
    ensures Tracks(HeapAfter(s, run), RecordedSlots(s, run)[id][i])
    ensures RecordedSlots(s, run)[id][i].value.storage < run.nextStorage
  {
    RecordedSlot(s, run, id, i);
    if id == s.nextGraph {
      TrackedOutput(s, run, i);
      assert Held(HeapAfter(s, run), run.outs[i].storage);
      if OutputIsNew(s, run, i) {
        assert run.outs[i].storage !in s.heap.cached;
      }
    } else {
      assert Tracks(s.heap, s.slots[id][i]);
    }
  }

  lemma RecordTrackingOk(s: State, fn: FunctionId, statics: seq<nat>, inputs: seq<Input>, run: ModelRun)
    requires CanRecord(s) && RecordingRun(s, run)
    ensures TrackingOk(Record(s, fn, statics, inputs, run))
  {
    var slots := RecordedSlots(s, run);
    var h := HeapAfter(s, run);
    FollowsTracking(h, s.heap, s.slots, s.nextStorage, run.nextStorage);
    forall id, i: nat | SlotIn(slots, id, i)
      ensures Tracks(h, slots[id][i]) && slots[id][i].value.storage < run.nextStorage
      ensures slots[id][i].value.extra ==> slots[id][i].value.storage in h.cached && h.cached[slots[id][i].value.storage] == Place(id, i)
    {
      RecordedSlotTracks(s, run, id, i);
      RecordedSlot(s, run, id, i);
    }
  }

  lemma RecordFlagsOk(s: State, fn: FunctionId, statics: seq<nat>, inputs: seq<Input>, run: ModelRun)
    requires CanRecord(s) && RecordingRun(s, run)
    ensures FlagsOk(Record(s, fn, statics, inputs, run))
  {
    var t := Record(s, fn, statics, inputs, run);
    RecordPathShape(s);
    forall id, i: nat | id in t.recs && i < |t.recs[id].outs| && t.recs[id].outs[i].Tracked?
      ensures t.recs[id].outs[i].alias.PriorOutput? ==>
                var p := t.recs[id].outs[i].alias.index;
                p.depth < |t.recs[id].path| && !FlagAt(t.unaliased, t.recs[id].path[p.depth], p.output)
      ensures t.recs[id].outs[i].alias.NewOutput? ==> !FlagAt(t.unaliased, id, t.recs[id].outs[i].alias.position)
    {
      if id == s.nextGraph {
        NewFlagsOk(s, run, i);
      } else {
        OldFlagsOk(s, RecordedOuts(s, run), id, i);
      }
    }
  }

  lemma NewFlagsOk(s: State, run: ModelRun, i: nat)
    requires CanRecord(s) && RecordingRun(s, run) && i < |run.outs| && RecordedOuts(s, run)[i].Tracked?
    ensures var outs := RecordedOuts(s, run);
            var flags := MarkAliased(s.unaliased, CurPath(s), outs)[s.nextGraph := OwnFlags(outs)];
            && (outs[i].alias.PriorOutput? ==>
                  outs[i].alias.index.depth < |CurPath(s)| &&
                  !FlagAt(flags, RecordPath(s)[outs[i].alias.index.depth], outs[i].alias.index.output))
            && (outs[i].alias.NewOutput? ==> !FlagAt(flags, s.nextGraph, outs[i].alias.position))
  {
    var outs := RecordedOuts(s, run);
    RecordPathShape(s);
    RecordedClassified(s, run);
    assert Classified(HeapAfter(s, run), s.slots, CurPath(s), run, outs, i);
    if outs[i].alias.PriorOutput? {
      var p := outs[i].alias.index;
      var node := CurPath(s)[p.depth];
      assert node in s.recs;
      MarkedFlag(s, outs, node, p.output);
      assert AliasesPrior(CurPath(s), outs, node, p.output);
    }
  }

  lemma OldFlagsOk(s: State, outs: seq<Output>, id: GraphId, i: nat)
    requires CanRecord(s) && id in s.recs && i < |s.recs[id].outs| && s.recs[id].outs[i].Tracked?
    ensures var flags := MarkAliased(s.unaliased, CurPath(s), outs)[s.nextGraph := OwnFlags(outs)];
            && (s.recs[id].outs[i].alias.PriorOutput? ==>
                  var p := s.recs[id].outs[i].alias.index;
                  p.depth < |s.recs[id].path| && !FlagAt(flags, s.recs[id].path[p.depth], p.output))
            && (s.recs[id].outs[i].alias.NewOutput? ==> !FlagAt(flags, id, s.recs[id].outs[i].alias.position))
  {
    assert RecordOk(s.recs, id);
    assert NodeOk(s, id);
    match s.recs[id].outs[i].alias
    case PriorOutput(p) =>
      var node := s.recs[id].path[p.depth];
      assert node in s.recs;
      MarkedFlag(s, outs, node, p.output);
    case NewOutput(j) =>
      MarkedFlag(s, outs, id, j);
    case Unaliased =>
  }

  lemma RecordChildrenOk(s: State, fn: FunctionId, statics: seq<nat>, inputs: seq<Input>, run: ModelRun)
    requires CanRecord(s)
    ensures ChildrenOk(Record(s, fn, statics, inputs, run))
  {
    RecordPathShape(s);
    RecordedChildren(s.recs, s.children, s.nextGraph, Site(s.current, fn), NewRecord(s, fn, statics, inputs, run), CurPath(s)) by {
      assert ChildrenOk(s);
    }
    hide ChildrenIn;
    hide NewRecord;
    hide CanRecord;
  }

  lemma RecordedChildren(recs: map<GraphId, GraphRecord>, children: map<Site, seq<GraphId>>, id: GraphId, site: Site,
                         r: GraphRecord, path: seq<GraphId>)
    requires ChildrenIn(recs, children) && id !in recs && r.fn == site.fn && r.path == path + [id]
    requires if site.node.None? then path == [] else site.node.value in recs && path == recs[site.node.value].path
    ensures ChildrenIn(recs[id := r], children[site := ChildrenAt(children, site) + [id]])
  {
    var after, recs' := children[site := ChildrenAt(children, site) + [id]], recs[id := r];
    forall k, j: nat | k in after && j < |after[k]|
      ensures var c := after[k][j];
              && c in recs' && recs'[c].fn == k.fn
              && (k.node.None? ==> recs'[c].path == [c])
              && (k.node.Some? ==> k.node.value in recs' && recs'[c].path == recs'[k.node.value].path + [c])
    {
      var c := after[k][j];
      if k == site && j == |ChildrenAt(children, k)| {
        assert c == id;
      } else {
        assert k in children && c == children[k][j];
        assert c in recs && c != id;
      }
    }
  }

  lemma RecordCurrentOk(s: State, fn: FunctionId, statics: seq<nat>, inputs: seq<Input>, run: ModelRun)
    requires CanRecord(s)
    ensures CurPath(Record(s, fn, statics, inputs, run)) == RecordPath(s)
    ensures CurrentOk(Record(s, fn, statics, inputs, run))
  {
    var t := Record(s, fn, statics, inputs, run);
    RecordExtends(s, fn, statics, inputs, run);
    RecordedPathOk(s, run, t.recs);
    var p := RecordPath(s);
    forall d | 0 <= d < |p|
      ensures p[d] in t.slots && PathOf(t, p[d]) == p[..d + 1]
    {
      var node := p[d];
      assert node in t.recs;
    }
  }

  lemma RecordPathUncached(s: State, fn: FunctionId, statics: seq<nat>, inputs: seq<Input>, run: ModelRun)
    requires CanRecord(s) && RecordingRun(s, run)
    ensures PathUncached(Record(s, fn, statics, inputs, run))
  {
    var t := Record(s, fn, statics, inputs, run);
    RecordCurrentOk(s, fn, statics, inputs, run);
    RecordPathShape(s);
    forall d: nat, i: nat | InPath(t.slots, RecordPath(s), d, i)
      ensures !SlotAt(t.slots, RecordPath(s), d, i).extra
    {
      RecordedLiveness(s, run, d, i);
    }
  }

  /** Recording takes a manager whose allocator reflects its path to one in the
      recording state with every invariant intact. */
  lemma RecordValid(s: State, fn: FunctionId, statics: seq<nat>, inputs: seq<Input>, run: ModelRun)
    requires CanRecord(s) && RecordingRun(s, run)
    ensures Valid(Record(s, fn, statics, inputs, run))
    ensures CurPath(Record(s, fn, statics, inputs, run)) == CurPath(s) + [s.nextGraph]
  {
    var t := Record(s, fn, statics, inputs, run);
    RecordIdsOk(s, fn, statics, inputs, run);
    RecordNodesOk(s, fn, statics, inputs, run);
    RecordTrackingOk(s, fn, statics, inputs, run);
    RecordExtends(s, fn, statics, inputs, run);
    RecordedRecordsOk(s, run, t.recs);
    RecordFlagsOk(s, fn, statics, inputs, run);
    RecordChildrenOk(s, fn, statics, inputs, run);
    RecordCurrentOk(s, fn, statics, inputs, run);
    RecordPathUncached(s, fn, statics, inputs, run);
    RecordedPoolExact(s, run);
    RecordPathLive(s, fn, statics, inputs, run);
  }

  lemma RecordPathLive(s: State, fn: FunctionId, statics: seq<nat>, inputs: seq<Input>, run: ModelRun)
    requires CanRecord(s) && RecordingRun(s, run)
    ensures PathLiveOk(Record(s, fn, statics, inputs, run))
  {
    var t := Record(s, fn, statics, inputs, run);
    RecordCurrentOk(s, fn, statics, inputs, run);
    RecordedSameStorage(s, run);
    forall d: nat, i: nat | LiveAt(t.heap, t.slots, RecordPath(s), d, i)
      ensures At(RecordedAfter(s, run), d, i)
    {
      LivenessOfAt(t.heap, t.slots, RecordPath(s), d, i);
    }
  }
}
