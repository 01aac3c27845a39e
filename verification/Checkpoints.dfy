/**
 Resuming allocation after a replay. A replay leaves the allocator untouched, so
 before anything may be recorded or warmed up behind it the manager drops the
 path's cached tensors, restores the allocator state saved when the current node
 was recorded, and deletes the blocks of the storages that died since.
 */
module Checkpoints {
  import opened Options
  import opened Storages
  import opened PathIndices
  import opened TreeState
  import opened PathOps

  // ---------------------------------------------------------------- dropping caches

  /** A row once the extra-reference checks of its flagged outputs are removed. */
  function ClearedRow(row: Row, flags: seq<bool>): (r: Row) {
    seq(|row|, i requires 0 <= i < |row| =>
      if i < |flags| && flags[i] && row[i].Some? then Some(row[i].value.(extra := false)) else row[i])
  }

  function FlagsOf(unaliased: map<GraphId, seq<bool>>, id: GraphId): seq<bool> {
    if id in unaliased then unaliased[id] else []
  }

  function CachedStorages(caches: map<GraphId, seq<Option<StorageId>>>, nodes: seq<GraphId>): set<StorageId> {
    set id, i | id in nodes && id in caches && 0 <= i < |caches[id]| && caches[id][i].Some? :: caches[id][i].value
  }

  /** The given nodes release their cached tensors. */
  function RemoveCached(s: State, nodes: seq<GraphId>): State {
    s.(slots := map id | id in s.slots :: if id in nodes then ClearedRow(s.slots[id], FlagsOf(s.unaliased, id)) else s.slots[id],
       caches := map id | id in s.caches :: if id in nodes then [] else s.caches[id],
       heap := Uncache(s.heap, CachedStorages(s.caches, nodes)))
  }

  /** A slot of a cleared node carries no check; it is otherwise what it was. */
  lemma ClearedSlot(s: State, nodes: seq<GraphId>, id: GraphId, i: nat)
    requires NodesOk(s) && (forall n :: n in nodes ==> n in s.recs)
    requires SlotIn(s.slots, id, i)
    ensures var t := RemoveCached(s, nodes);
            && SlotIn(t.slots, id, i)
            && t.slots[id][i].value == s.slots[id][i].value.(extra := s.slots[id][i].value.extra && id !in nodes)
  {
    if id in nodes {
      assert NodeOk(s, id);
    }
  }

  lemma ClearedShape(s: State, nodes: seq<GraphId>)
    ensures var t := RemoveCached(s, nodes);
            && t.slots.Keys == s.slots.Keys
            && forall id :: id in s.slots ==>
                 |t.slots[id]| == |s.slots[id]| && forall i :: 0 <= i < |s.slots[id]| ==> (t.slots[id][i].Some? <==> s.slots[id][i].Some?)
  {
  }

  /** The storages released are exactly those of the checked slots of the nodes. */
  lemma ReleasedStorage(s: State, nodes: seq<GraphId>, id: GraphId, i: nat)
    requires NodesOk(s) && TrackingOk(s) && (forall n :: n in nodes ==> n in s.recs)
    requires SlotIn(s.slots, id, i) && s.slots[id][i].value.extra
    ensures s.slots[id][i].value.storage in CachedStorages(s.caches, nodes) <==> id in nodes
  {
    var x := s.slots[id][i].value.storage;
    if id in nodes {
      assert NodeOk(s, id);
      assert s.caches[id][i] == Some(x);
    }
    if x in CachedStorages(s.caches, nodes) {
      var jd, j :| jd in nodes && jd in s.caches && 0 <= j < |s.caches[jd]| && s.caches[jd][j].Some? && s.caches[jd][j].value == x;
      assert NodeOk(s, jd);
      assert SlotIn(s.slots, jd, j) && s.slots[jd][j].value.extra && s.slots[jd][j].value.storage == x;
    }
  }

  lemma ClearedTracking(s: State, nodes: seq<GraphId>)
    requires NodesOk(s) && TrackingOk(s) && (forall n :: n in nodes ==> n in s.recs)
    ensures TrackingOk(RemoveCached(s, nodes))
  {
    var t := RemoveCached(s, nodes);
    ClearedShape(s, nodes);
    forall id, i: nat | SlotIn(t.slots, id, i)
      ensures Tracks(t.heap, t.slots[id][i]) && t.slots[id][i].value.storage < t.nextStorage
      ensures t.slots[id][i].value.extra ==> t.heap.cached[t.slots[id][i].value.storage] == Place(id, i)
    {
      assert SlotIn(s.slots, id, i);
      ClearedSlot(s, nodes, id, i);
      if s.slots[id][i].value.extra {
        ReleasedStorage(s, nodes, id, i);
      }
    }
  }

  /** Dropping cached tensors changes the liveness of no slot anywhere. */
  lemma CachingIsInvisible(s: State, nodes: seq<GraphId>, id: GraphId, i: nat)
    requires NodesOk(s) && TrackingOk(s) && (forall n :: n in nodes ==> n in s.recs)
    requires SlotIn(s.slots, id, i)
    ensures SlotIn(RemoveCached(s, nodes).slots, id, i)
    ensures IsLive(RemoveCached(s, nodes).heap, RemoveCached(s, nodes).slots[id][i]) <==> IsLive(s.heap, s.slots[id][i])
  {
    ClearedSlot(s, nodes, id, i);
    ClearedTracking(s, nodes);
    var t := RemoveCached(s, nodes);
    LiveIffHeld(s.heap, s.slots[id][i].value);
    LiveIffHeld(t.heap, t.slots[id][i].value);
  }

  lemma CachingIsInvisibleOnPath(s: State, nodes: seq<GraphId>, path: seq<GraphId>, d: nat, i: nat)
    requires NodesOk(s) && TrackingOk(s) && (forall n :: n in nodes ==> n in s.recs)
    ensures var t := RemoveCached(s, nodes);
            && (InPath(t.slots, path, d, i) <==> InPath(s.slots, path, d, i))
            && (LiveAt(t.heap, t.slots, path, d, i) <==> LiveAt(s.heap, s.slots, path, d, i))
            && (InPath(s.slots, path, d, i) ==>
                  && SlotAt(t.slots, path, d, i).ptr == SlotAt(s.slots, path, d, i).ptr
                  && SlotAt(t.slots, path, d, i).storage == SlotAt(s.slots, path, d, i).storage)
  {
    ClearedShape(s, nodes);
    if InPath(s.slots, path, d, i) {
      assert SlotIn(s.slots, path[d], i);
      CachingIsInvisible(s, nodes, path[d], i);
      ClearedSlot(s, nodes, path[d], i);
    }
  }

  lemma ClearedNode(s: State, nodes: seq<GraphId>, id: GraphId)
    requires id in s.recs && NodeOk(s, id)
    ensures NodeOk(RemoveCached(s, nodes), id)
  {
  }

  lemma ClearedNodes(s: State, nodes: seq<GraphId>)
    requires NodesOk(s)
    ensures NodesOk(RemoveCached(s, nodes))
  {
    forall id | id in s.recs
      ensures NodeOk(RemoveCached(s, nodes), id)
    {
      ClearedNode(s, nodes, id);
    }
  }

  lemma ClearedCurrent(s: State, nodes: seq<GraphId>)
    requires CurrentOk(s)
    ensures CurrentOk(RemoveCached(s, nodes)) && CurPath(RemoveCached(s, nodes)) == CurPath(s)
  {
    var t := RemoveCached(s, nodes);
    assert t.slots.Keys == s.slots.Keys;
    assert t == s.(slots := t.slots, caches := t.caches, heap := t.heap);
    hide RemoveCached;
    assert forall id :: PathOf(t, id) == PathOf(s, id);
  }

  lemma ClearedIds(s: State, nodes: seq<GraphId>)
    requires IdsOk(s)
    ensures IdsOk(RemoveCached(s, nodes))
  {
    var t := RemoveCached(s, nodes);
    assert t.slots.Keys == s.slots.Keys && t.caches.Keys == s.caches.Keys;
    assert t == s.(slots := t.slots, caches := t.caches, heap := t.heap);
    hide RemoveCached;
  }

  lemma ClearedSound(s: State, nodes: seq<GraphId>)
    requires Sound(s) && (forall n :: n in nodes ==> n in s.recs)
    ensures Sound(RemoveCached(s, nodes)) && CurPath(RemoveCached(s, nodes)) == CurPath(s)
  {
    hide NodesOk;
    hide IdsOk;
    hide TrackingOk;
    hide RecordsOk;
    hide FlagsIn;
    hide ChildrenIn;
    hide CurrentOk;
    hide PathLiveOk;
    ClearedIds(s, nodes);
    ClearedNodes(s, nodes);
    ClearedTracking(s, nodes);
    ClearedCurrent(s, nodes);
    ClearedPathLive(s, nodes);
  }

  lemma ClearedPathLive(s: State, nodes: seq<GraphId>)
    requires NodesOk(s) && TrackingOk(s) && PathLiveOk(s) && (forall n :: n in nodes ==> n in s.recs)
    ensures PathLiveOk(RemoveCached(s, nodes))
  {
    var t := RemoveCached(s, nodes);
    var path := CurPath(s);
    assert CurPath(t) == path;
    forall d: nat, i: nat
      ensures && (InPath(t.slots, path, d, i) <==> InPath(s.slots, path, d, i))
              && (LiveAt(t.heap, t.slots, path, d, i) <==> LiveAt(s.heap, s.slots, path, d, i))
              && (InPath(s.slots, path, d, i) ==>
                    && SlotAt(t.slots, path, d, i).ptr == SlotAt(s.slots, path, d, i).ptr
                    && SlotAt(t.slots, path, d, i).storage == SlotAt(s.slots, path, d, i).storage)
    {
      CachingIsInvisibleOnPath(s, nodes, path, d, i);
    }
    hide RemoveCached;
  }

  /** Once its own nodes are cleared a graph path is free of caches. */
  lemma ClearedPathUncached(s: State)
    requires Sound(s) && AtGraphNode(s)
    ensures PathUncached(RemoveCached(s, CurPath(s)))
  {
    var path := CurPath(s);
    PathIsRecorded(s);
    hide Sound;
    assert CurPath(RemoveCached(s, path)) == path;
    ClearedPathPlain(s, path);
    hide PathPlain;
  }

  lemma PathIsRecorded(s: State)
    requires Sound(s) && AtGraphNode(s)
    ensures NodesOk(s) && forall n :: n in CurPath(s) ==> n in s.recs
  {
    assert RecordOk(s.recs, s.current.value);
  }

  lemma ClearedPathPlain(s: State, path: seq<GraphId>)
    requires NodesOk(s) && forall n :: n in path ==> n in s.recs
    ensures PathPlain(RemoveCached(s, path).slots, path)
  {
    var t := RemoveCached(s, path);
    ClearedShape(s, path);
    forall d: nat, i: nat | InPath(t.slots, path, d, i)
      ensures !SlotAt(t.slots, path, d, i).extra
    {
      assert SlotIn(s.slots, path[d], i);
      ClearedSlot(s, path, path[d], i);
    }
  }

  // ---------------------------------------------------------------- the allocator

  /** The storage listed last for an address. */
  function OwnerIn(live: seq<WeakRef>, a: Addr): Option<StorageId> {
    if |live| == 0 then None
    else if live[|live| - 1].ptr == a then Some(live[|live| - 1].storage)
    else OwnerIn(live[..|live| - 1], a)
  }

  /** Restoring a saved allocator state: exactly the saved addresses are allocated,
      and the listed live storages own theirs. */
  function RestoredPool(saved: set<Addr>, live: seq<WeakRef>): Pool {
    map a | a in saved :: OwnerIn(live, a)
  }

  /** Outputs of the path whose liveness changed since the current node was recorded. */
  function ChangedIndices(s: State): seq<PathIndex>
    requires AtGraphNode(s)
  {
    DifferentIndices(s.recs[s.current.value].after, LivenessOf(s.heap, s.slots, CurPath(s)))
  }

  /** Recorded addresses of the outputs that died since the current node ran. */
  function DeadAddresses(s: State): set<Addr>
    requires AtGraphNode(s)
  {
    var ix := ChangedIndices(s);
    set k | 0 <= k < |ix| && TrackedAt(s.recs, CurPath(s), ix[k].depth, ix[k].output) ::
      PtrAt(s.recs, CurPath(s), ix[k].depth, ix[k].output)
  }

  function Checkpoint(s: State): State {
    if !AtGraphNode(s) then s
    else
      var t := RemoveCached(s, CurPath(s));
      t.(pool := RestoredPool(t.recs[t.current.value].checkpoint, PathLiveWeakrefs(t)) - DeadAddresses(t))
  }

  lemma {:induction false} OwnerInIsListed(live: seq<WeakRef>, a: Addr, x: StorageId)
    requires forall k :: 0 <= k < |live| && live[k].ptr == a ==> live[k].storage == x
    ensures OwnerIn(live, a) == if exists k :: 0 <= k < |live| && live[k].ptr == a then Some(x) else None
  {
    if |live| > 0 && live[|live| - 1].ptr != a {
      OwnerInIsListed(live[..|live| - 1], a, x);
    }
  }

  /** A tracked output and its slot have the same recorded address. */
  lemma SlotPtr(s: State, d: nat, i: nat)
    requires Sound(s) && AtGraphNode(s)
    ensures InPath(s.slots, CurPath(s), d, i) <==> TrackedAt(s.recs, CurPath(s), d, i)
    ensures InPath(s.slots, CurPath(s), d, i) ==>
              SlotAt(s.slots, CurPath(s), d, i).ptr == PtrAt(s.recs, CurPath(s), d, i)
  {
    assert RecordOk(s.recs, s.current.value);
    if d < |CurPath(s)| {
      assert NodeOk(s, CurPath(s)[d]);
    }
  }

  lemma TablesComparable(s: State)
    requires Sound(s) && AtGraphNode(s)
    ensures Comparable(s.recs[s.current.value].after, LivenessOf(s.heap, s.slots, CurPath(s)))
  {
    var r := s.recs[s.current.value];
    assert RecordOk(s.recs, s.current.value);
    forall d | 0 <= d < |r.after|
      ensures |r.after[d]| == |LivenessOf(s.heap, s.slots, CurPath(s))[d]|
    {
      assert NodeOk(s, r.path[d]);
    }
  }

  /** Live when the current node was recorded, dead now. */
  predicate DiedAt(s: State, d: nat, i: nat)
    requires AtGraphNode(s)
  {
    && At(s.recs[s.current.value].after, d, i)
    && !LiveAt(s.heap, s.slots, CurPath(s), d, i)
    && InPath(s.slots, CurPath(s), d, i)
  }

  ghost predicate DiedAddr(s: State, a: Addr)
    requires AtGraphNode(s)
  {
    exists d: nat, i: nat :: DiedAt(s, d, i) && SlotAt(s.slots, CurPath(s), d, i).ptr == a
  }

  lemma ChangedIsDied(s: State, p: PathIndex)
    requires Sound(s) && AtGraphNode(s)
    ensures p in ChangedIndices(s) <==> DiedAt(s, p.depth, p.output)
  {
    var after := s.recs[s.current.value].after;
    var curr := LivenessOf(s.heap, s.slots, CurPath(s));
    TablesComparable(s);
    assert RecordOk(s.recs, s.current.value);
    DifferentIndicesMember(after, curr, p);
    LivenessOfAt(s.heap, s.slots, CurPath(s), p.depth, p.output);
    SlotPtr(s, p.depth, p.output);
  }

  /** An address is deleted exactly when a slot with it was live at recording and is dead now. */
  lemma DeadAddressesExact(s: State, a: Addr)
    requires Sound(s) && AtGraphNode(s)
    ensures a in DeadAddresses(s) <==> DiedAddr(s, a)
  {
    hide Sound;
    var ix := ChangedIndices(s);
    if a in DeadAddresses(s) {
      var k :| 0 <= k < |ix| && TrackedAt(s.recs, CurPath(s), ix[k].depth, ix[k].output) &&
               PtrAt(s.recs, CurPath(s), ix[k].depth, ix[k].output) == a;
      assert ix[k] in ix;
      ChangedIsDied(s, ix[k]);
      SlotPtr(s, ix[k].depth, ix[k].output);
    }
    if DiedAddr(s, a) {
      var d: nat, i: nat :| DiedAt(s, d, i) && SlotAt(s.slots, CurPath(s), d, i).ptr == a;
      ChangedIsDied(s, PathIndex(d, i));
      SlotPtr(s, d, i);
      var k :| 0 <= k < |ix| && ix[k] == PathIndex(d, i);
    }
  }

  /** The step never deletes an address that a live storage of the path uses, and
      deletes only addresses the restored state has allocated. */
  lemma DeletesOnlyDead(s: State, a: Addr)
    requires Sound(s) && AtGraphNode(s) && a in DeadAddresses(s)
    ensures !LiveAddr(s.heap, s.slots, CurPath(s), a)
    ensures a in s.recs[s.current.value].checkpoint
  {
    DeadAddressesExact(s, a);
    var path := CurPath(s);
    var d: nat, i: nat :| DiedAt(s, d, i) && SlotAt(s.slots, path, d, i).ptr == a;
    SlotPtr(s, d, i);
    assert RecordOk(s.recs, s.current.value);
    LiveAtIsHeld(s.heap, s.slots, path, d, i);
    forall e: nat, j: nat | InPath(s.slots, path, e, j) && SlotAt(s.slots, path, e, j).ptr == a
      ensures !LiveAt(s.heap, s.slots, path, e, j)
    {
      LiveAtIsHeld(s.heap, s.slots, path, e, j);
    }
  }

  /** A restored address that is not deleted belongs to a live storage. */
  lemma SurvivorIsLive(s: State, a: Addr)
    requires Sound(s) && AtGraphNode(s)
    requires a in s.recs[s.current.value].checkpoint && a !in DeadAddresses(s)
    ensures LiveAddr(s.heap, s.slots, CurPath(s), a)
  {
    var r := s.recs[s.current.value];
    assert RecordOk(s.recs, s.current.value);
    var d: nat, i: nat :| At(r.after, d, i) && TrackedAt(s.recs, r.path, d, i) && PtrAt(s.recs, r.path, d, i) == a;
    SlotPtr(s, d, i);
    DeadAddressesExact(s, a);
  }

  /** Restoring and deleting makes the pool exact for the path. */
  lemma RestoredPoolExact(s: State)
    requires Sound(s) && AtGraphNode(s)
    ensures PoolExact(RestoredPool(s.recs[s.current.value].checkpoint, PathLiveWeakrefs(s)) - DeadAddresses(s),
                      s.heap, s.slots, CurPath(s))
  {
    var r := s.recs[s.current.value];
    var pool := RestoredPool(r.checkpoint, PathLiveWeakrefs(s)) - DeadAddresses(s);
    forall d: nat, i: nat | LiveAt(s.heap, s.slots, CurPath(s), d, i)
      ensures var w := SlotAt(s.slots, CurPath(s), d, i);
              w.ptr in pool && pool[w.ptr] == Some(w.storage)
    {
      LiveSlotOwns(s, d, i);
    }
    forall a | a in pool
      ensures LiveAddr(s.heap, s.slots, CurPath(s), a)
    {
      SurvivorIsLive(s, a);
    }
  }

  lemma LiveSlotOwns(s: State, d: nat, i: nat)
    requires Sound(s) && AtGraphNode(s) && LiveAt(s.heap, s.slots, CurPath(s), d, i)
    ensures var w := SlotAt(s.slots, CurPath(s), d, i);
            && w.ptr in s.recs[s.current.value].checkpoint
            && w.ptr !in DeadAddresses(s)
            && OwnerIn(PathLiveWeakrefs(s), w.ptr) == Some(w.storage)
  {
    var r := s.recs[s.current.value];
    var w := SlotAt(s.slots, CurPath(s), d, i);
    assert RecordOk(s.recs, s.current.value);
    assert At(r.after, d, i);
    SlotPtr(s, d, i);
    assert LiveAddr(s.heap, s.slots, CurPath(s), w.ptr);
    assert w.ptr !in DeadAddresses(s) by {
      forall a | a in DeadAddresses(s)
        ensures !LiveAddr(s.heap, s.slots, CurPath(s), a)
      {
        DeletesOnlyDead(s, a);
      }
    }
    ListedOwner(s, d, i);
  }

  lemma ListedOwner(s: State, d: nat, i: nat)
    requires Sound(s) && AtGraphNode(s) && LiveAt(s.heap, s.slots, CurPath(s), d, i)
    ensures OwnerIn(PathLiveWeakrefs(s), SlotAt(s.slots, CurPath(s), d, i).ptr) == Some(SlotAt(s.slots, CurPath(s), d, i).storage)
  {
    var live := PathLiveWeakrefs(s);
    var w := SlotAt(s.slots, CurPath(s), d, i);
    FastLivenessIsExact(s);
    assert LiveRef(s.heap, s.slots, CurPath(s), w);
    assert w in live;
    forall k | 0 <= k < |live| && live[k].ptr == w.ptr
      ensures live[k].storage == w.storage
    {
      assert live[k] in live;
      assert LiveRef(s.heap, s.slots, CurPath(s), live[k]);
      var e: nat, j: nat :| LiveAt(s.heap, s.slots, CurPath(s), e, j) && SlotAt(s.slots, CurPath(s), e, j) == live[k];
      assert At(s.recs[s.current.value].after, e, j) && At(s.recs[s.current.value].after, d, i);
    }
    OwnerInIsListed(live, w.ptr, w.storage);
  }

  /** After the checkpoint step the allocator reflects the path exactly. */
  lemma CheckpointReady(s: State)
    requires Sound(s) && AtGraphNode(s)
    ensures Sound(Checkpoint(s)) && Ready(Checkpoint(s)) && CurPath(Checkpoint(s)) == CurPath(s)
  {
    var t := RemoveCached(s, CurPath(s));
    assert RecordOk(s.recs, s.current.value);
    ClearedSound(s, CurPath(s));
    ClearedPathUncached(s);
    RestoredPoolExact(t);
    SoundFrame(t, Checkpoint(s));
  }
}
