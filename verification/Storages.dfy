/**
 Storages, the references that keep them alive, and the weak references with
 which the graph tree watches them.

 A storage is a number. What keeps it alive is split the way the source counts
 it: the output tensor object itself, other tensors over the same storage, and
 the tensor kept in a node's output cache.
 */
module Storages {
  import opened Options

  type Addr = nat
  type StorageId = nat

  /** A storage weak reference wrapper. `extra` says that an extra-reference
      check is installed, i.e. that a cached tensor is expected to hold one
      reference of its own. The address is kept even after expiry. */
  datatype WeakRef = WeakRef(storage: StorageId, ptr: Addr, extra: bool)

  /** The outputs of one node, `None` where an output is not tracked. */
  type Row = seq<Option<WeakRef>>

  /** An output of a node. */
  datatype Place = Place(node: int, output: nat)

  /** Who holds what: `tensors` are storages whose output tensor object is
      referenced outside the cache, `views` are storages referenced by any other
      tensor, `cached` are storages whose tensor object sits in an output cache,
      with the place where. */
  datatype Heap = Heap(tensors: set<StorageId>, views: set<StorageId>, cached: map<StorageId, Place>)

  /** Some reference other than a cache entry exists. */
  predicate Held(h: Heap, x: StorageId) {
    x in h.tensors || x in h.views
  }

  /** The storage use count: the tensor object counts once however many
      references it has, views count separately. */
  function UseCount(h: Heap, x: StorageId): nat {
    (if x in h.tensors || x in h.cached then 1 else 0) + (if x in h.views then 1 else 0)
  }

  /** The tensor object is referenced by nothing but the cache. */
  predicate ExtraRefCheck(h: Heap, x: StorageId) {
    x !in h.tensors
  }

  predicate Expired(h: Heap, w: WeakRef) {
    if w.extra && !ExtraRefCheck(h, w.storage) then false
    else UseCount(h, w.storage) - (if w.extra then 1 else 0) == 0
  }

  predicate IsLive(h: Heap, w: Option<WeakRef>) {
    w.Some? && !Expired(h, w.value)
  }

  /** The extra-reference check is installed exactly while the cache holds the tensor. */
  predicate Tracks(h: Heap, w: Option<WeakRef>) {
    w.Some? ==> (w.value.extra <==> w.value.storage in h.cached)
  }

  /** With the check installed exactly when needed, liveness is being held by
      something other than a cache. */
  lemma LiveIffHeld(h: Heap, w: WeakRef)
    requires Tracks(h, Some(w))
    ensures IsLive(h, Some(w)) <==> Held(h, w.storage)
  {
  }

  /** Without that discipline it is not: an installed check whose cached tensor
      is gone makes a dead storage look alive, and a cached tensor without a
      check keeps an abandoned storage alive for ever. */
  lemma LivenessNeedsTheDiscipline(h: Heap, w: WeakRef)
    requires !Tracks(h, Some(w)) && !Held(h, w.storage)
    ensures IsLive(h, Some(w))
  {
  }

  /** `h` after `xs` have been released by the caches. */
  function Uncache(h: Heap, xs: set<StorageId>): (r: Heap) {
    h.(cached := h.cached - xs)
  }
}
