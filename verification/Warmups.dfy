/**
 Warming a function up behind the current path: it runs eagerly in the pool, and
 its outputs in the pool are tracked by a node that is never replayed.
 */
module Warmups {
  import opened Options
  import opened Storages
  import opened PathIndices
  import opened TreeState
  import opened PathOps
  import opened Recordings
  import opened RecordingProofs
  import opened Replays

  function WarmupPath(s: State): seq<GraphId> {
    CurPath(s) + [s.nextWarmup]
  }

  /** The live weak references of a path by a scan of every slot. */
  function ScannedWeakrefs(h: Heap, slots: Slots, path: seq<GraphId>): seq<WeakRef> {
    LiveAmong(h, slots, path, AllIndices(slots, path), |AllIndices(slots, path)|)
  }

  /** Storages of the inputs and constants that are not at the address of a live output. */
  function OutsideStorages(live: seq<WeakRef>, inputs: seq<Input>, constants: set<StorageId>): set<StorageId> {
    (set i | 0 <= i < |inputs| && inputs[i].Tensor? && inputs[i].base !in Addresses(live) :: inputs[i].storage) + constants
  }

  /** Storages of the inputs and constants that do not come from the path. */
  function NonGraphStorages(s: State, inputs: seq<Input>, run: ModelRun): set<StorageId> {
    OutsideStorages(ScannedWeakrefs(s.heap, s.slots, WarmupPath(s)), inputs, run.constants)
  }

  predicate TracksOutput(o: RawOutput, outside: set<StorageId>) {
    o.RawTensor? && o.storage !in outside && o.ptr != 0
  }

  function TrackedRow(outs: seq<RawOutput>, outside: set<StorageId>): (r: Row)
    ensures |r| == |outs|
  {
    seq(|outs|, i requires 0 <= i < |outs| =>
      if TracksOutput(outs[i], outside) then Some(WeakRef(outs[i].storage, outs[i].ptr, false)) else None)
  }

  function WarmupRow(s: State, inputs: seq<Input>, run: ModelRun): (r: Row)
    ensures |r| == |run.outs|
  {
    TrackedRow(run.outs, NonGraphStorages(s, inputs, run))
  }

  /** The blocks of the storages numbered from `lo` among the first `n` slots join the pool. */
  function AllocateRow(pool: Pool, row: Row, lo: StorageId, n: nat): Pool
    requires n <= |row|
  {
    if n == 0 then pool
    else
      var q := AllocateRow(pool, row, lo, n - 1);
      if row[n - 1].Some? && row[n - 1].value.storage >= lo
      then q[row[n - 1].value.ptr := Some(row[n - 1].value.storage)] else q
  }

  function WarmUp(s: State, fn: FunctionId, inputs: seq<Input>, run: ModelRun): State {
    var id := s.nextWarmup;
    var row := WarmupRow(s, inputs, run);
    var h := HeapAfter(s, run);
    s.(warm := s.warm[id := WarmupRecord(fn, WarmupPath(s))],
       slots := s.slots[id := row],
       current := Some(id), pathState := WarmingUp, currentGen := CurrGeneration(s),
       warmedUp := s.warmedUp + {fn}, nextWarmup := id - 1,
       heap := h, pool := AllocateRow(FreeDead(s.pool, h), row, s.nextStorage, |row|),
       nextStorage := run.nextStorage)
  }

  /** What is taken for granted of a warmup: it runs in the pool, and each output it is
      to track is a live storage of the path or new memory. */
  ghost predicate WarmupRun(s: State, inputs: seq<Input>, run: ModelRun) {
    && PoolRun(s, run)
    && (forall i: nat :: i < |run.outs| && TracksOutput(run.outs[i], NonGraphStorages(s, inputs, run)) ==>
          OutputOnPath(s, run, i) || OutputIsNew(s, run, i))
  }

  ghost predicate CanWarmUp(s: State) {
    Sound(s) && Ready(s)
  }

  lemma {:induction false} AllocateRowSpec(pool: Pool, row: Row, lo: StorageId, n: nat, a: Addr)
    requires n <= |row|
    requires forall i, j | 0 <= i < |row| && 0 <= j < |row| && row[i].Some? && row[j].Some? ::
               row[i].value.storage >= lo && row[j].value.storage >= lo && row[i].value.ptr == row[j].value.ptr ==>
                 row[i].value.storage == row[j].value.storage
    ensures a in AllocateRow(pool, row, lo, n) <==>
            a in pool || exists i :: 0 <= i < n && row[i].Some? && row[i].value.storage >= lo && row[i].value.ptr == a
    ensures (forall i :: 0 <= i < n && row[i].Some? && row[i].value.storage >= lo ==> row[i].value.ptr != a) && a in pool ==>
            AllocateRow(pool, row, lo, n)[a] == pool[a]
    ensures forall i :: 0 <= i < n && row[i].Some? && row[i].value.storage >= lo && row[i].value.ptr == a ==>
            AllocateRow(pool, row, lo, n)[a] == Some(row[i].value.storage)
  {
    if n > 0 {
      AllocateRowSpec(pool, row, lo, n - 1, a);
    }
  }

  lemma WarmupPathShape(s: State)
    requires Sound(s)
    ensures s.nextWarmup !in s.slots && s.nextWarmup !in s.recs && s.nextWarmup !in s.warm && s.nextWarmup !in CurPath(s)
  {
  }

  /** A tracked output is either an old storage, owning its block all through, or new. */
  lemma WarmupOutput(s: State, inputs: seq<Input>, run: ModelRun, i: nat)
    requires CanWarmUp(s) && WarmupRun(s, inputs, run) && i < |run.outs| && WarmupRow(s, inputs, run)[i].Some?
    ensures run.outs[i].RawTensor? && WarmupRow(s, inputs, run)[i].value == WeakRef(run.outs[i].storage, run.outs[i].ptr, false)
    ensures Held(HeapAfter(s, run), run.outs[i].storage) && run.outs[i].storage !in s.heap.cached
    ensures run.outs[i].storage < s.nextStorage ==>
              run.outs[i].ptr in FreeDead(s.pool, HeapAfter(s, run)) && s.pool[run.outs[i].ptr] == Some(run.outs[i].storage)
    ensures run.outs[i].storage >= s.nextStorage ==> OutputIsNew(s, run, i)
  {
    if OutputOnPath(s, run, i) {
      var d: nat, j: nat :| LiveAt(HeapAfter(s, run), s.slots, CurPath(s), d, j) &&
        SlotAt(s.slots, CurPath(s), d, j).storage == run.outs[i].storage && SlotAt(s.slots, CurPath(s), d, j).ptr == run.outs[i].ptr;
      LiveOwner(s, run, d, j);
    }
  }

  /** The pool after a warmup: what stayed allocated, and the new outputs. */
  /** New outputs at one address are one storage, and no block that stayed has that address. */
  lemma WarmupRowNew(s: State, inputs: seq<Input>, run: ModelRun)
    requires CanWarmUp(s) && WarmupRun(s, inputs, run)
    ensures var row := WarmupRow(s, inputs, run);
            && (forall i :: 0 <= i < |row| && row[i].Some? && row[i].value.storage >= s.nextStorage ==>
                  row[i].value.ptr !in FreeDead(s.pool, HeapAfter(s, run)))
            && (forall i, j | 0 <= i < |row| && 0 <= j < |row| && row[i].Some? && row[j].Some? ::
                  row[i].value.storage >= s.nextStorage && row[j].value.storage >= s.nextStorage && row[i].value.ptr == row[j].value.ptr ==>
                    row[i].value.storage == row[j].value.storage)
  {
    var row := WarmupRow(s, inputs, run);
    forall i | 0 <= i < |row| && row[i].Some? && row[i].value.storage >= s.nextStorage
      ensures run.outs[i].RawTensor? && row[i].value == WeakRef(run.outs[i].storage, run.outs[i].ptr, false) && OutputIsNew(s, run, i)
    {
      WarmupOutput(s, inputs, run, i);
    }
    hide CanWarmUp;
    hide WarmupRow;
  }

  lemma WarmupPoolSpec(s: State, fn: FunctionId, inputs: seq<Input>, run: ModelRun, a: Addr)
    requires CanWarmUp(s) && WarmupRun(s, inputs, run)
    ensures var row, pool := WarmupRow(s, inputs, run), WarmUp(s, fn, inputs, run).pool;
            && (a in pool <==> a in FreeDead(s.pool, HeapAfter(s, run)) ||
                               exists i :: 0 <= i < |row| && row[i].Some? && row[i].value.storage >= s.nextStorage && row[i].value.ptr == a)
            && (a in FreeDead(s.pool, HeapAfter(s, run)) ==> pool[a] == s.pool[a])
            && (forall i :: 0 <= i < |row| && row[i].Some? && row[i].value.storage >= s.nextStorage && row[i].value.ptr == a ==>
                  pool[a] == Some(row[i].value.storage))
  {
    var row := WarmupRow(s, inputs, run);
    WarmupRowNew(s, inputs, run);
    hide CanWarmUp;
    hide WarmupRun;
    hide WarmupRow;
    hide AllocateRow;
    AllocateRowSpec(FreeDead(s.pool, HeapAfter(s, run)), row, s.nextStorage, |row|, a);
  }

  /** On the old rows nothing but the heap changed; every tracked output of the new row is live. */
  lemma WarmupLiveness(s: State, fn: FunctionId, inputs: seq<Input>, run: ModelRun, d: nat, i: nat)
    requires CanWarmUp(s) && WarmupRun(s, inputs, run)
    ensures var t, P := WarmUp(s, fn, inputs, run), CurPath(s);
            && (d < |P| ==>
                  && (InPath(t.slots, WarmupPath(s), d, i) <==> InPath(s.slots, P, d, i))
                  && (InPath(s.slots, P, d, i) ==> SlotAt(t.slots, WarmupPath(s), d, i) == SlotAt(s.slots, P, d, i))
                  && (LiveAt(t.heap, t.slots, WarmupPath(s), d, i) <==> LiveAt(t.heap, s.slots, P, d, i)))
            && (d == |P| ==>
                  && (InPath(t.slots, WarmupPath(s), d, i) <==> i < |run.outs| && WarmupRow(s, inputs, run)[i].Some?)
                  && (InPath(t.slots, WarmupPath(s), d, i) ==>
                        SlotAt(t.slots, WarmupPath(s), d, i) == WarmupRow(s, inputs, run)[i].value &&
                        LiveAt(t.heap, t.slots, WarmupPath(s), d, i)))
            && (d > |P| ==> !InPath(t.slots, WarmupPath(s), d, i))
  {
    WarmupPathShape(s);
    var t, P := WarmUp(s, fn, inputs, run), CurPath(s);
    hide Sound;
    hide Ready;
    hide WarmupRun;
    hide AllocateRow;
    hide FreeDead;
    hide NonGraphStorages;
    if d < |P| {
      assert RowAt(t.slots, P[d]) == RowAt(s.slots, P[d]);
    } else if d == |P| && i < |run.outs| && WarmupRow(s, inputs, run)[i].Some? {
      WarmupOutput(s, inputs, run, i);
    }
  }

  lemma WarmupPoolExact(s: State, fn: FunctionId, inputs: seq<Input>, run: ModelRun)
    requires CanWarmUp(s) && WarmupRun(s, inputs, run)
    ensures var t := WarmUp(s, fn, inputs, run); PoolExact(t.pool, t.heap, t.slots, WarmupPath(s))
  {
    var t := WarmUp(s, fn, inputs, run);
    forall d: nat, i: nat | LiveAt(t.heap, t.slots, WarmupPath(s), d, i)
      ensures var w := SlotAt(t.slots, WarmupPath(s), d, i);
              w.ptr in t.pool && t.pool[w.ptr] == Some(w.storage)
    {
      WarmupOwnsLive(s, fn, inputs, run, d, i);
    }
    forall a | a in t.pool
      ensures LiveAddr(t.heap, t.slots, WarmupPath(s), a)
    {
      WarmupBlockIsLive(s, fn, inputs, run, a);
    }
  }

  lemma WarmupOwnsLive(s: State, fn: FunctionId, inputs: seq<Input>, run: ModelRun, d: nat, i: nat)
    requires CanWarmUp(s) && WarmupRun(s, inputs, run)
    requires LiveAt(WarmUp(s, fn, inputs, run).heap, WarmUp(s, fn, inputs, run).slots, WarmupPath(s), d, i)
    ensures var t := WarmUp(s, fn, inputs, run);
            var w := SlotAt(t.slots, WarmupPath(s), d, i);
            w.ptr in t.pool && t.pool[w.ptr] == Some(w.storage)
  {
    var w := SlotAt(WarmUp(s, fn, inputs, run).slots, WarmupPath(s), d, i);
    WarmupLiveness(s, fn, inputs, run, d, i);
    WarmupPoolSpec(s, fn, inputs, run, w.ptr);
    if d < |CurPath(s)| {
      LiveOwner(s, run, d, i);
    } else {
      WarmupOutput(s, inputs, run, i);
    }
  }

  lemma WarmupBlockIsLive(s: State, fn: FunctionId, inputs: seq<Input>, run: ModelRun, a: Addr)
    requires CanWarmUp(s) && WarmupRun(s, inputs, run) && a in WarmUp(s, fn, inputs, run).pool
    ensures var t := WarmUp(s, fn, inputs, run); LiveAddr(t.heap, t.slots, WarmupPath(s), a)
  {
    var h, row := HeapAfter(s, run), WarmupRow(s, inputs, run);
    WarmupPoolSpec(s, fn, inputs, run, a);
    if a in FreeDead(s.pool, h) {
      FollowsTracking(h, s.heap, s.slots, s.nextStorage, run.nextStorage);
      KeptBlockIsLive(s.pool, s.heap, h, s.slots, CurPath(s), a);
      var d: nat, i: nat :| LiveAt(h, s.slots, CurPath(s), d, i) && SlotAt(s.slots, CurPath(s), d, i).ptr == a;
      WarmupLiveness(s, fn, inputs, run, d, i);
    } else {
      var i :| 0 <= i < |row| && row[i].Some? && row[i].value.storage >= s.nextStorage && row[i].value.ptr == a;
      WarmupLiveness(s, fn, inputs, run, |CurPath(s)|, i);
    }
  }

  lemma WarmupTrackingOk(s: State, fn: FunctionId, inputs: seq<Input>, run: ModelRun)
    requires CanWarmUp(s) && WarmupRun(s, inputs, run)
    ensures TrackingOk(WarmUp(s, fn, inputs, run))
  {
    var t := WarmUp(s, fn, inputs, run);
    FollowsTracking(t.heap, s.heap, s.slots, s.nextStorage, run.nextStorage);
    forall id, i: nat | SlotIn(t.slots, id, i)
      ensures Tracks(t.heap, t.slots[id][i]) && t.slots[id][i].value.storage < t.nextStorage
      ensures t.slots[id][i].value.extra ==>
                t.slots[id][i].value.storage in t.heap.cached && t.heap.cached[t.slots[id][i].value.storage] == Place(id, i)
    {
      if id == s.nextWarmup {
        WarmupOutput(s, inputs, run, i);
        assert Held(t.heap, run.outs[i].storage);
      } else {
        assert SlotIn(s.slots, id, i);
        assert Tracks(s.heap, s.slots[id][i]);
      }
    }
  }

  lemma WarmupTables(s: State, fn: FunctionId, inputs: seq<Input>, run: ModelRun)
    requires CanWarmUp(s)
    ensures var t := WarmUp(s, fn, inputs, run);
            IdsOk(t) && NodesOk(t) && FlagsOk(t) && ChildrenOk(t)
  {
    var t := WarmUp(s, fn, inputs, run);
    WarmupPathShape(s);
    hide RecordsOk;
    hide TrackingOk;
    hide FlagsIn;
    hide ChildrenIn;
    hide CurrentOk;
    hide PathLiveOk;
    hide Ready;
    hide WarmupRow;
    hide AllocateRow;
    hide FreeDead;
    forall id | id in t.recs
      ensures NodeOk(t, id)
    {
      assert NodeOk(s, id);
    }
    hide NodesOk;
  }

  lemma WarmupCurrentOk(s: State, fn: FunctionId, inputs: seq<Input>, run: ModelRun)
    requires CanWarmUp(s)
    ensures CurPath(WarmUp(s, fn, inputs, run)) == WarmupPath(s)
    ensures CurrentOk(WarmUp(s, fn, inputs, run)) && PathLiveOk(WarmUp(s, fn, inputs, run))
  {
    var t := WarmUp(s, fn, inputs, run);
    WarmupPathShape(s);
    assert CurrentOk(s) && s.nextWarmup !in s.recs;
    hide CanWarmUp;
    hide WarmupRow;
    hide AllocateRow;
    hide FreeDead;
    hide LiveWithin;
    hide SameStorage;
    var p := WarmupPath(s);
    forall d | 0 <= d < |p|
      ensures p[d] in t.slots && PathOf(t, p[d]) == p[..d + 1]
    {
      if d < |CurPath(s)| {
        assert p[d] == CurPath(s)[d] && p[d] != s.nextWarmup;
        assert p[..d + 1] == CurPath(s)[..d + 1];
      } else {
        assert p[..d + 1] == p;
      }
    }
  }

  lemma WarmupUncached(s: State, fn: FunctionId, inputs: seq<Input>, run: ModelRun)
    requires CanWarmUp(s) && WarmupRun(s, inputs, run)
    ensures PathUncached(WarmUp(s, fn, inputs, run))
  {
    var t := WarmUp(s, fn, inputs, run);
    WarmupCurrentOk(s, fn, inputs, run);
    forall d: nat, i: nat | InPath(t.slots, WarmupPath(s), d, i)
      ensures !SlotAt(t.slots, WarmupPath(s), d, i).extra
    {
      WarmupLiveness(s, fn, inputs, run, d, i);
    }
  }

  /** Warming up keeps every invariant, from any state whose allocator reflects its path. */
  lemma WarmupValid(s: State, fn: FunctionId, inputs: seq<Input>, run: ModelRun)
    requires CanWarmUp(s) && WarmupRun(s, inputs, run)
    ensures Valid(WarmUp(s, fn, inputs, run)) && CurPath(WarmUp(s, fn, inputs, run)) == CurPath(s) + [s.nextWarmup]
  {
    WarmupTables(s, fn, inputs, run);
    WarmupTrackingOk(s, fn, inputs, run);
    WarmupCurrentOk(s, fn, inputs, run);
    WarmupUncached(s, fn, inputs, run);
    WarmupPoolExact(s, fn, inputs, run);
  }
}
