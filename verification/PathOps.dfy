/**
 The steps that change the references, the caches or the allocator without
 running anything: user code dropping references, ending a path, freeing the
 storages of a path, and restoring the allocator after a replay.
 */
module PathOps {
  import opened Options
  import opened Storages
  import opened PathIndices
  import opened TreeState

  // ---------------------------------------------------------------- user code

  /** User code ran between `h` and `h'`: whatever it still holds it held before,
      or it is a new storage (numbered from `lo` up to `hi`). The caches are the same. */
  ghost predicate Follows(h': Heap, h: Heap, lo: StorageId, hi: StorageId) {
    && h'.cached == h.cached && lo <= hi
    && forall x: StorageId :: Held(h', x) ==> Held(h, x) || lo <= x < hi
  }

  /** An owned block is returned to the pool when its storage's use count drops to zero. */
  function FreeDead(pool: Pool, h: Heap): Pool {
    map a | a in pool && (pool[a].None? || UseCount(h, pool[a].value) > 0) :: pool[a]
  }

  /** User code runs: references are dropped and tensors outside the pool are made. */
  function UserStep(s: State, h: Heap, n: StorageId): State {
    s.(heap := h, pool := FreeDead(s.pool, h), nextStorage := n)
  }

  /** Nothing comes back to life. */
  lemma LivenessFalls(h': Heap, h: Heap, slots: Slots, lo: StorageId, hi: StorageId, path: seq<GraphId>, d: nat, i: nat)
    requires Follows(h', h, lo, hi) && AllTracked(h, slots) && StoragesBelow(h, slots, lo)
    requires LiveAt(h', slots, path, d, i)
    ensures LiveAt(h, slots, path, d, i)
  {
    assert SlotIn(slots, path[d], i);
    LiveAtIsHeld(h, slots, path, d, i);
    LiveIffHeld(h', SlotAt(slots, path, d, i));
  }

  lemma FollowsTracking(h': Heap, h: Heap, slots: Slots, lo: StorageId, hi: StorageId)
    requires Follows(h', h, lo, hi) && AllTracked(h, slots) && StoragesBelow(h, slots, lo)
    ensures AllTracked(h', slots) && StoragesBelow(h', slots, hi)
  {
    forall id, i: nat | SlotIn(slots, id, i)
      ensures Tracks(h', slots[id][i])
    {
      assert Tracks(h, slots[id][i]);
    }
    forall x | x in h'.tensors || x in h'.views || x in h'.cached
      ensures x < hi
    {
      assert Held(h', x) || x in h.cached;
    }
  }

  /** A pool exact for a path stays exact when storages die. */
  lemma FreeDeadExact(pool: Pool, h: Heap, h': Heap, slots: Slots, lo: StorageId, hi: StorageId, path: seq<GraphId>)
    requires Follows(h', h, lo, hi) && AllTracked(h, slots) && StoragesBelow(h, slots, lo)
    requires AllTracked(h', slots) && PathPlain(slots, path)
    requires PoolExact(pool, h, slots, path)
    ensures PoolExact(FreeDead(pool, h'), h', slots, path)
  {
    var pool' := FreeDead(pool, h');
    forall d: nat, i: nat | LiveAt(h', slots, path, d, i)
      ensures var w := SlotAt(slots, path, d, i);
              w.ptr in pool' && pool'[w.ptr] == Some(w.storage)
    {
      LivenessFalls(h', h, slots, lo, hi, path, d, i);
      LiveAtIsHeld(h', slots, path, d, i);
    }
    forall a | a in pool'
      ensures LiveAddr(h', slots, path, a)
    {
      KeptBlockIsLive(pool, h, h', slots, path, a);
    }
  }

  lemma KeptBlockIsLive(pool: Pool, h: Heap, h': Heap, slots: Slots, path: seq<GraphId>, a: Addr)
    requires AllTracked(h', slots) && PathPlain(slots, path)
    requires PoolExact(pool, h, slots, path) && a in FreeDead(pool, h')
    ensures LiveAddr(h', slots, path, a)
  {
    assert LiveAddr(h, slots, path, a);
    var d: nat, i: nat :| LiveAt(h, slots, path, d, i) && SlotAt(slots, path, d, i).ptr == a;
    var w := SlotAt(slots, path, d, i);
    assert pool[a] == Some(w.storage);
    assert SlotIn(slots, path[d], i);
    assert Tracks(h', slots[path[d]][i]);
    assert w.storage !in h'.cached;
    assert Held(h', w.storage);
    LiveAtIsHeld(h', slots, path, d, i);
  }

  lemma UserStepPathLive(s: State, h: Heap, n: StorageId)
    requires TrackingOk(s) && PathLiveOk(s) && Follows(h, s.heap, s.nextStorage, n)
    ensures PathLiveOk(UserStep(s, h, n))
  {
    forall d: nat, i: nat | LiveAt(h, s.slots, CurPath(s), d, i)
      ensures LiveAt(s.heap, s.slots, CurPath(s), d, i)
    {
      LivenessFalls(h, s.heap, s.slots, s.nextStorage, n, CurPath(s), d, i);
    }
  }

  /** User code keeps everything. */
  lemma UserStepValid(s: State, h: Heap, n: StorageId)
    requires Valid(s) && Follows(h, s.heap, s.nextStorage, n)
    ensures Valid(UserStep(s, h, n))
  {
    FollowsTracking(h, s.heap, s.slots, s.nextStorage, n);
    UserStepPathLive(s, h, n);
    if s.pathState in {Recording, WarmingUp} {
      FreeDeadExact(s.pool, s.heap, h, s.slots, s.nextStorage, n, CurPath(s));
    }
    HeapFrame(s, UserStep(s, h, n));
    assert s.pool == map[] ==> FreeDead(s.pool, h) == map[];
  }

  /** The tables other than the tracking of storages do not read the heap. */
  lemma HeapFrame(s: State, t: State)
    requires t == s.(heap := t.heap, pool := t.pool, nextStorage := t.nextStorage)
    requires IdsOk(s) && NodesOk(s) && FlagsOk(s) && ChildrenOk(s) && CurrentOk(s)
    ensures IdsOk(t) && NodesOk(t) && FlagsOk(t) && ChildrenOk(t) && CurrentOk(t) && CurPath(t) == CurPath(s)
  {
    assert forall id :: PathOf(t, id) == PathOf(s, id);
    assert forall id :: id in t.recs ==> (NodeOk(s, id) ==> NodeOk(t, id));
  }

  // ---------------------------------------------------------------- liveness queries

  /** No output on the path is live: the scan over every slot. */
  ghost predicate NoneLive(h: Heap, slots: Slots, path: seq<GraphId>) {
    forall d: nat, i: nat :: !LiveAt(h, slots, path, d, i)
  }

  /** What a graph node looks at: only the slots live when it was recorded. */
  predicate AllIndexedDead(h: Heap, slots: Slots, path: seq<GraphId>, indices: seq<PathIndex>) {
    forall k :: 0 <= k < |indices| ==> !LiveAt(h, slots, path, indices[k].depth, indices[k].output)
  }

  /** The live weak references among the given indices, in order. */
  function LiveAmong(h: Heap, slots: Slots, path: seq<GraphId>, indices: seq<PathIndex>, n: nat): seq<WeakRef>
    requires n <= |indices|
  {
    if n == 0 then []
    else
      var p := indices[n - 1];
      LiveAmong(h, slots, path, indices, n - 1) +
      (if LiveAt(h, slots, path, p.depth, p.output) then [SlotAt(slots, path, p.depth, p.output)] else [])
  }

  /** A table that is true at every slot of a path. */
  function EverySlot(slots: Slots, path: seq<GraphId>): (r: Liveness)
    ensures |r| == |path| && forall d :: 0 <= d < |path| ==> |r[d]| == |RowAt(slots, path[d])|
    ensures forall d, i :: 0 <= d < |path| && 0 <= i < |r[d]| ==> r[d][i]
  {
    seq(|path|, d requires 0 <= d < |path| => seq(|RowAt(slots, path[d])|, i => true))
  }

  /** Every index of a path, in scan order. */
  function AllIndices(slots: Slots, path: seq<GraphId>): seq<PathIndex> {
    TrueIndices(EverySlot(slots, path), |path|)
  }

  lemma AllIndicesMember(slots: Slots, path: seq<GraphId>, p: PathIndex)
    ensures p in AllIndices(slots, path) <==> p.depth < |path| && p.output < |RowAt(slots, path[p.depth])|
  {
    TrueIndicesMember(EverySlot(slots, path), |path|, p);
  }

  /** The indices the current node consults: those live after its recording for a
      graph node, every slot of the path for a warmup node. */
  function ConsultedIndices(s: State): seq<PathIndex> {
    if AtGraphNode(s) then s.recs[s.current.value].liveAfter else AllIndices(s.slots, CurPath(s))
  }

  /** The live weak references of the current path, as the current node reports them. */
  function PathLiveWeakrefs(s: State): seq<WeakRef> {
    LiveAmong(s.heap, s.slots, CurPath(s), ConsultedIndices(s), |ConsultedIndices(s)|)
  }

  predicate AllOutputsAreDead(s: State) {
    AllIndexedDead(s.heap, s.slots, CurPath(s), ConsultedIndices(s))
  }

  lemma {:induction false} LiveAmongMember(h: Heap, slots: Slots, path: seq<GraphId>, indices: seq<PathIndex>, n: nat, w: WeakRef)
    requires n <= |indices|
    ensures w in LiveAmong(h, slots, path, indices, n) <==>
            exists k :: 0 <= k < n && LiveAt(h, slots, path, indices[k].depth, indices[k].output) &&
                        SlotAt(slots, path, indices[k].depth, indices[k].output) == w
  {
    if n > 0 {
      LiveAmongMember(h, slots, path, indices, n - 1, w);
    }
  }

  /** Every live slot is consulted. */
  lemma LiveIsConsulted(s: State, d: nat, i: nat)
    requires Sound(s) && LiveAt(s.heap, s.slots, CurPath(s), d, i)
    ensures PathIndex(d, i) in ConsultedIndices(s)
  {
    if AtGraphNode(s) {
      assert RecordOk(s.recs, s.current.value);
      assert At(s.recs[s.current.value].after, d, i);
      assert At(s.recs[s.current.value].after, PathIndex(d, i).depth, PathIndex(d, i).output);
    } else {
      AllIndicesMember(s.slots, CurPath(s), PathIndex(d, i));
    }
  }

  /** The fast liveness queries agree with a scan of every slot of the path. */
  lemma FastLivenessIsExact(s: State)
    requires Sound(s)
    ensures AllOutputsAreDead(s) <==> NoneLive(s.heap, s.slots, CurPath(s))
    ensures forall w :: w in PathLiveWeakrefs(s) <==> LiveRef(s.heap, s.slots, CurPath(s), w)
  {
    var ix := ConsultedIndices(s);
    forall d: nat, i: nat | LiveAt(s.heap, s.slots, CurPath(s), d, i)
      ensures exists k :: 0 <= k < |ix| && ix[k] == PathIndex(d, i)
    {
      LiveIsConsulted(s, d, i);
    }
    forall w
      ensures w in PathLiveWeakrefs(s) <==> LiveRef(s.heap, s.slots, CurPath(s), w)
    {
      LiveAmongMember(s.heap, s.slots, CurPath(s), ix, |ix|, w);
      if LiveRef(s.heap, s.slots, CurPath(s), w) {
        var d: nat, i: nat :| LiveAt(s.heap, s.slots, CurPath(s), d, i) && SlotAt(s.slots, CurPath(s), d, i) == w;
        var k :| 0 <= k < |ix| && ix[k] == PathIndex(d, i);
      }
    }
  }

  // ---------------------------------------------------------------- ending a path

  function EndPath(s: State): State {
    s.(current := None, pathState := NoPath)
  }

  lemma EndPathSound(s: State)
    requires Sound(s)
    ensures Sound(EndPath(s))
  {
    TablesFrame(s, EndPath(s));
  }

  lemma DeadPathHasEmptyPool(s: State)
    requires PoolOk(s) && NoneLive(s.heap, s.slots, CurPath(s))
    ensures s.pool == map[]
  {
    assert forall a :: a in s.pool ==> LiveAddr(s.heap, s.slots, CurPath(s), a);
    assert s.pool.Keys == {};
  }

  lemma EndDeadPath(s: State)
    requires Valid(s) && AllOutputsAreDead(s)
    ensures Valid(EndPath(s))
  {
    FastLivenessIsExact(s);
    DeadPathHasEmptyPool(s);
    EndPathSound(s);
  }

  lemma EndExecutedPath(s: State)
    requires Valid(s) && s.pathState == Executing
    ensures Valid(EndPath(s))
  {
    EndPathSound(s);
  }

  /** The addresses of a list of weak references, without repetition. */
  function Addresses(ws: seq<WeakRef>): set<Addr> {
    set k | 0 <= k < |ws| :: ws[k].ptr
  }

  /** Frees every live storage of the path and forgets the path. */
  function DeallocPath(s: State): (r: State)
    ensures r == s.(pool := r.pool)
  {
    s.(pool := s.pool - Addresses(PathLiveWeakrefs(s)))
  }

  lemma DeallocEmptiesPool(s: State)
    requires Sound(s) && Ready(s)
    ensures Addresses(PathLiveWeakrefs(s)) == s.pool.Keys
    ensures DeallocPath(s).pool == map[]
  {
    var ws := PathLiveWeakrefs(s);
    LiveRefsCoverPool(s.pool, s.heap, s.slots, CurPath(s), ws) by {
      FastLivenessIsExact(s);
    }
    assert DeallocPath(s).pool.Keys == {};
  }

  lemma LiveRefsCoverPool(pool: Pool, h: Heap, slots: Slots, path: seq<GraphId>, ws: seq<WeakRef>)
    requires PoolExact(pool, h, slots, path)
    requires forall w :: w in ws <==> LiveRef(h, slots, path, w)
    ensures Addresses(ws) == pool.Keys
  {
    forall a | a in pool
      ensures a in Addresses(ws)
    {
      assert LiveAddr(h, slots, path, a);
      var d: nat, i: nat :| LiveAt(h, slots, path, d, i) && SlotAt(slots, path, d, i).ptr == a;
      assert LiveRef(h, slots, path, SlotAt(slots, path, d, i));
    }
    forall a | a in Addresses(ws)
      ensures a in pool
    {
      var k :| 0 <= k < |ws| && ws[k].ptr == a;
      assert LiveRef(h, slots, path, ws[k]);
    }
  }

  lemma EndFreedPath(s: State)
    requires Valid(s) && s.pathState in {Recording, WarmingUp}
    ensures Valid(EndPath(DeallocPath(s)))
  {
    DeallocEmptiesPool(s);
    SoundFrame(s, DeallocPath(s));
    EndPathSound(DeallocPath(s));
  }
}
