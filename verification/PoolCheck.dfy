/**
 The debug check that the allocator's pool and the live storages agree: a walk over
 the segments of the pool that adds block sizes up to addresses.
 */
module PoolCheck {
  import opened Options
  import opened Storages
  import opened TreeState
  import opened PathOps
  import opened Calls
  import opened Runs

  datatype BlockState = ActiveAllocated | ActivePendingFree | Inactive

  datatype Block = Block(size: nat, state: BlockState)

  datatype Segment = Segment(address: Addr, blocks: seq<Block>)

  // ---------------------------------------------------------------- where blocks are

  /** The address just after the first `k` blocks. */
  function Offset(g: Segment, k: nat): Addr
    requires k <= |g.blocks|
  {
    if k == 0 then g.address else Offset(g, k - 1) + g.blocks[k - 1].size
  }

  predicate Listed(b: Block, liveOnly: bool) {
    b.state == ActiveAllocated || !liveOnly
  }

  /** A (listed) block starts at `a`. */
  ghost predicate BlockAt(segments: seq<Segment>, liveOnly: bool, a: Addr) {
    exists g, k :: 0 <= g < |segments| && 0 <= k < |segments[g].blocks| &&
      Listed(segments[g].blocks[k], liveOnly) && Offset(segments[g], k) == a
  }

  /** Block sizes are positive, and no two segments overlap. */
  ghost predicate Disjoint(segments: seq<Segment>) {
    && (forall g, k :: 0 <= g < |segments| && 0 <= k < |segments[g].blocks| ==> segments[g].blocks[k].size > 0)
    && (forall g, h :: 0 <= g < h < |segments| ==>
          End(segments[g]) <= segments[h].address || End(segments[h]) <= segments[g].address)
  }

  function End(g: Segment): Addr {
    Offset(g, |g.blocks|)
  }

  // ---------------------------------------------------------------- the walk

  /** Addresses of the listed blocks among the first `n` of a segment. */
  function SegmentAddrs(g: Segment, liveOnly: bool, n: nat): seq<Addr>
    requires n <= |g.blocks|
  {
    if n == 0 then []
    else SegmentAddrs(g, liveOnly, n - 1) + (if Listed(g.blocks[n - 1], liveOnly) then [Offset(g, n - 1)] else [])
  }

  function Addrs(segments: seq<Segment>, liveOnly: bool, n: nat): seq<Addr>
    requires n <= |segments|
  {
    if n == 0 then []
    else Addrs(segments, liveOnly, n - 1) + SegmentAddrs(segments[n - 1], liveOnly, |segments[n - 1].blocks|)
  }

  lemma {:induction false} SegmentAddrsExact(g: Segment, liveOnly: bool, n: nat, a: Addr)
    requires n <= |g.blocks|
    ensures a in SegmentAddrs(g, liveOnly, n) <==> exists k :: 0 <= k < n && Listed(g.blocks[k], liveOnly) && Offset(g, k) == a
  {
    hide Offset;
    if n > 0 {
      SegmentAddrsExact(g, liveOnly, n - 1, a);
    }
  }

  lemma {:induction false} AddrsOfPrefix(segments: seq<Segment>, liveOnly: bool, n: nat, a: Addr)
    requires n <= |segments|
    ensures a in Addrs(segments, liveOnly, n) <==> exists g :: 0 <= g < n && a in SegmentAddrs(segments[g], liveOnly, |segments[g].blocks|)
  {
    if n > 0 {
      AddrsOfPrefix(segments, liveOnly, n - 1, a);
    }
  }

  /** The walk lists the addresses of blocks and no others. */
  lemma AddrsExact(segments: seq<Segment>, liveOnly: bool, a: Addr)
    ensures a in Addrs(segments, liveOnly, |segments|) <==> BlockAt(segments, liveOnly, a)
  {
    AddrsOfPrefix(segments, liveOnly, |segments|, a);
    forall g | 0 <= g < |segments|
      ensures a in SegmentAddrs(segments[g], liveOnly, |segments[g].blocks|) <==>
              exists k :: 0 <= k < |segments[g].blocks| && Listed(segments[g].blocks[k], liveOnly) && Offset(segments[g], k) == a
    {
      SegmentAddrsExact(segments[g], liveOnly, |segments[g].blocks|, a);
    }
  }

  // ---------------------------------------------------------------- no address twice

  ghost predicate NoRepeats(addrs: seq<Addr>) {
    forall i, j :: 0 <= i < j < |addrs| ==> addrs[i] != addrs[j]
  }

  ghost predicate Positive(g: Segment) {
    forall k :: 0 <= k < |g.blocks| ==> g.blocks[k].size > 0
  }

  /** With positive sizes the addresses of a segment rise. */
  lemma {:induction false} SegmentAddrsRise(g: Segment, liveOnly: bool, n: nat)
    requires Positive(g) && n <= |g.blocks|
    ensures var s := SegmentAddrs(g, liveOnly, n);
            NoRepeats(s) && g.address <= Offset(g, n) && forall i :: 0 <= i < |s| ==> g.address <= s[i] < Offset(g, n)
  {
    if n > 0 {
      SegmentAddrsRise(g, liveOnly, n - 1);
    }
  }

  /** Addresses of different segments are different. */
  lemma SegmentsApart(segments: seq<Segment>, liveOnly: bool, g: nat, h: nat, a: Addr)
    requires Disjoint(segments) && g < h < |segments| && a in SegmentAddrs(segments[g], liveOnly, |segments[g].blocks|)
    ensures a !in SegmentAddrs(segments[h], liveOnly, |segments[h].blocks|)
  {
    assert Positive(segments[g]) && Positive(segments[h]);
    hide SegmentAddrs;
    hide Offset;
    SegmentAddrsRise(segments[g], liveOnly, |segments[g].blocks|);
    SegmentAddrsRise(segments[h], liveOnly, |segments[h].blocks|);
  }

  lemma {:induction false} AddrsOnce(segments: seq<Segment>, liveOnly: bool, n: nat)
    requires Disjoint(segments) && n <= |segments|
    ensures NoRepeats(Addrs(segments, liveOnly, n))
  {
    hide SegmentAddrs;
    hide Offset;
    hide Disjoint;
    if n > 0 {
      AddrsOnce(segments, liveOnly, n - 1);
      var first, last := Addrs(segments, liveOnly, n - 1), SegmentAddrs(segments[n - 1], liveOnly, |segments[n - 1].blocks|);
      SegmentOnce(segments, liveOnly, n - 1);
      hide NoRepeats;
      forall a | a in first
        ensures a !in last
      {
        AddrsOfPrefix(segments, liveOnly, n - 1, a);
        var g :| 0 <= g < n - 1 && a in SegmentAddrs(segments[g], liveOnly, |segments[g].blocks|);
        SegmentsApart(segments, liveOnly, g, n - 1, a);
      }
      NoRepeatsConcat(first, last);
    }
  }

  lemma SegmentOnce(segments: seq<Segment>, liveOnly: bool, g: nat)
    requires Disjoint(segments) && g < |segments|
    ensures NoRepeats(SegmentAddrs(segments[g], liveOnly, |segments[g].blocks|))
  {
    assert Positive(segments[g]);
    SegmentAddrsRise(segments[g], liveOnly, |segments[g].blocks|);
  }

  lemma NoRepeatsConcat(first: seq<Addr>, second: seq<Addr>)
    requires NoRepeats(first) && NoRepeats(second) && forall a :: a in first ==> a !in second
    ensures NoRepeats(first + second)
  {
    var both := first + second;
    forall i, j | 0 <= i < j < |both|
      ensures both[i] != both[j]
    {
      if i < |first| <= j {
        assert first[i] in first && second[j - |first|] in second;
      }
    }
  }

  // ---------------------------------------------------------------- the check

  datatype PoolVerdict = Agrees | NotAllocated(missing: set<Addr>) | Unaccounted(blocks: map<Addr, Block>)

  /** Addresses of the (live) blocks of the pool. */
  method GetBlockAddrs(segments: seq<Segment>, liveOnly: bool) returns (addrs: seq<Addr>)
    ensures addrs == Addrs(segments, liveOnly, |segments|)
    ensures forall a :: a in addrs <==> BlockAt(segments, liveOnly, a)
  {
    addrs := [];
    for g := 0 to |segments|
      invariant addrs == Addrs(segments, liveOnly, g)
    {
      var addr := segments[g].address;
      for k := 0 to |segments[g].blocks|
        invariant addr == Offset(segments[g], k)
        invariant addrs == Addrs(segments, liveOnly, g) + SegmentAddrs(segments[g], liveOnly, k)
      {
        if segments[g].blocks[k].state == ActiveAllocated || !liveOnly {
          addrs := addrs + [addr];
        }
        addr := addr + segments[g].blocks[k].size;
      }
    }
    forall a
      ensures a in addrs <==> BlockAt(segments, liveOnly, a)
    {
      AddrsExact(segments, liveOnly, a);
    }
  }

  /** Addresses that the walk meets without a live storage left for them. */
  ghost predicate Extra(seen: seq<Addr>, live: set<Addr>, a: Addr) {
    exists j :: 0 <= j < |seen| && seen[j] == a && (a !in live || exists i :: 0 <= i < j && seen[i] == a)
  }

  /** Compare the pool with the live storages. `quick` is the allocator's own answer, asked first. */
  method CheckMemoryPool(quick: bool, refs: seq<WeakRef>, h: Heap, segments: seq<Segment>) returns (v: PoolVerdict)
    ensures quick ==> v.Agrees?
    ensures !quick ==> (v.NotAllocated? <==> exists a :: a in LivePtrs(h, refs) && !BlockAt(segments, true, a))
    ensures !quick && v.NotAllocated? ==> forall a :: a in v.missing <==> a in LivePtrs(h, refs) && !BlockAt(segments, true, a)
    ensures !quick && v.Unaccounted? ==> forall a :: a in v.blocks <==> Extra(Addrs(segments, true, |segments|), LivePtrs(h, refs), a)
    ensures !quick ==> (v.Agrees? <==> NoRepeats(Addrs(segments, true, |segments|)) && forall a :: a in LivePtrs(h, refs) <==> BlockAt(segments, true, a))
    ensures !quick && Disjoint(segments) ==> (v.Agrees? <==> forall a :: a in LivePtrs(h, refs) <==> BlockAt(segments, true, a))
  {
    var unique := LivePtrs(h, refs);
    if quick {
      return Agrees;
    }
    ghost var live := unique;
    ghost var seen: seq<Addr> := [];
    var unaccounted: map<Addr, Block> := map[];
    for g := 0 to |segments|
      invariant seen == Addrs(segments, true, g)
      invariant Compared(seen, live, unique, unaccounted)
    {
      var addr := segments[g].address;
      for k := 0 to |segments[g].blocks|
        invariant addr == Offset(segments[g], k)
        invariant seen == Addrs(segments, true, g) + SegmentAddrs(segments[g], true, k)
        invariant Compared(seen, live, unique, unaccounted)
      {
        if segments[g].blocks[k].state == ActiveAllocated {
          ComparedNext(seen, live, unique, unaccounted, addr, segments[g].blocks[k]);
          if addr !in unique {
            unaccounted := unaccounted[addr := segments[g].blocks[k]];
          } else {
            unique := unique - {addr};
          }
          seen := seen + [addr];
        }
        addr := addr + segments[g].blocks[k].size;
      }
    }
    forall a
      ensures a in seen <==> BlockAt(segments, true, a)
    {
      AddrsExact(segments, true, a);
    }
    NothingExtra(seen, live);
    if Disjoint(segments) {
      AddrsOnce(segments, true, |segments|);
    }
    if |unique| != 0 {
      var a :| a in unique;
      assert a in live && !BlockAt(segments, true, a);
      return NotAllocated(unique);
    }
    if |unaccounted| != 0 {
      assert exists a :: a in unaccounted;
      return Unaccounted(unaccounted);
    }
    return Agrees;
  }

  /** The addresses of the storages that are still referenced. */
  function LivePtrs(h: Heap, refs: seq<WeakRef>): set<Addr> {
    set i | 0 <= i < |refs| && !Expired(h, refs[i]) :: refs[i].ptr
  }

  /** What the walk keeps: live addresses not met yet, and blocks without a live storage. */
  ghost predicate Compared(seen: seq<Addr>, live: set<Addr>, unique: set<Addr>, unaccounted: map<Addr, Block>) {
    && (forall a :: a in unique <==> a in live && a !in seen)
    && (forall a :: a in unaccounted <==> Extra(seen, live, a))
  }

  lemma ComparedNext(seen: seq<Addr>, live: set<Addr>, unique: set<Addr>, unaccounted: map<Addr, Block>, a: Addr, b: Block)
    requires Compared(seen, live, unique, unaccounted)
    ensures if a in unique then Compared(seen + [a], live, unique - {a}, unaccounted)
            else Compared(seen + [a], live, unique, unaccounted[a := b])
  {
    var longer := seen + [a];
    forall x
      ensures Extra(longer, live, x) <==> Extra(seen, live, x) || (x == a && a !in unique)
    {
      if Extra(seen, live, x) {
        var j :| 0 <= j < |seen| && seen[j] == x && (x !in live || exists i :: 0 <= i < j && seen[i] == x);
        assert longer[j] == x;
        if x in live {
          var i :| 0 <= i < j && seen[i] == x;
          assert longer[i] == x;
        }
      }
      if x == a && a !in unique {
        assert longer[|seen|] == a;
        if a in live {
          var i :| 0 <= i < |seen| && seen[i] == a;
          assert longer[i] == a;
        }
      }
      if Extra(longer, live, x) {
        var j :| 0 <= j < |longer| && longer[j] == x && (x !in live || exists i :: 0 <= i < j && longer[i] == x);
        if j < |seen| {
          assert seen[j] == x;
          if x in live {
            var i :| 0 <= i < j && longer[i] == x;
            assert seen[i] == x;
          }
        } else if x in live {
          var i :| 0 <= i < j && longer[i] == x;
          assert seen[i] == a;
        }
      }
    }
  }

  lemma NothingExtra(seen: seq<Addr>, live: set<Addr>)
    ensures (forall a :: !Extra(seen, live, a)) <==> NoRepeats(seen) && forall a :: a in seen ==> a in live
  {
    if forall a :: !Extra(seen, live, a) {
      forall i, j | 0 <= i < j < |seen|
        ensures seen[i] != seen[j]
      {
        assert !Extra(seen, live, seen[j]);
      }
      forall j | 0 <= j < |seen|
        ensures seen[j] in live
      {
        assert !Extra(seen, live, seen[j]);
      }
    }
  }

  // ---------------------------------------------------------------- the check in use

  /** The segments are those of the pool. */
  ghost predicate Snapshot(segments: seq<Segment>, pool: Pool) {
    Disjoint(segments) && forall a :: a in pool <==> BlockAt(segments, true, a)
  }

  /** Whenever the allocator reflects the path, the live storages that the manager reports
      are the active blocks of the pool: the check passes. */
  lemma ReadyPoolAgrees(s: State, segments: seq<Segment>)
    requires Sound(s) && Ready(s) && Snapshot(segments, s.pool)
    ensures forall a :: a in LivePtrs(s.heap, PathLiveWeakrefs(s)) <==> BlockAt(segments, true, a)
  {
    FastLivenessIsExact(s);
    hide Sound;
    hide PathLiveWeakrefs;
    hide Disjoint;
    hide BlockAt;
    hide LivePtrs;
    hide LiveRef;
    LivePtrsArePool(s.heap, s.slots, CurPath(s), s.pool, PathLiveWeakrefs(s));
  }

  /** In every run the check passes in every state that records or warms up. */
  lemma RunPoolAgrees(cfg: Config, states: seq<State>, events: seq<Event>, k: nat, segments: seq<Segment>)
    requires IsRun(cfg, states, events) && k < |states| && states[k].pathState in {Recording, WarmingUp}
    requires Snapshot(segments, states[k].pool)
    ensures forall a :: a in LivePtrs(states[k].heap, PathLiveWeakrefs(states[k])) <==> BlockAt(segments, true, a)
  {
    RunIsValid(cfg, states, events, k);
    hide IsRun;
    hide Sound;
    hide Ready;
    hide Snapshot;
    ReadyPoolAgrees(states[k], segments);
  }

  lemma LivePtrsArePool(h: Heap, slots: Slots, path: seq<GraphId>, pool: Pool, refs: seq<WeakRef>)
    requires PoolExact(pool, h, slots, path) && forall w :: w in refs <==> LiveRef(h, slots, path, w)
    ensures forall a :: a in LivePtrs(h, refs) <==> a in pool
  {
    forall a | a in LivePtrs(h, refs)
      ensures a in pool
    {
      var i :| 0 <= i < |refs| && !Expired(h, refs[i]) && refs[i].ptr == a;
      assert LiveRef(h, slots, path, refs[i]);
    }
    forall a | a in pool
      ensures a in LivePtrs(h, refs)
    {
      assert LiveAddr(h, slots, path, a);
      var d: nat, k: nat :| LiveAt(h, slots, path, d, k) && SlotAt(slots, path, d, k).ptr == a;
      var w := SlotAt(slots, path, d, k);
      assert LiveRef(h, slots, path, w);
      var i :| 0 <= i < |refs| && refs[i] == w;
    }
  }
}
