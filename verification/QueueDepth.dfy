/**
 Queue depth at each profiler event: launches are matched with kernels, and a
 forward-only pointer into the kernels stands for how many have started.
 */
module QueueDepth {
  import opened Options

  datatype Kind = LaunchKernel | DeviceKernel | OtherKind

  /** A device-side trace event. Only some builds also offer its start in microseconds. */
  datatype Kineto = Kineto(kind: Kind, startNs: int, durationNs: int, startUs: Option<int>, correlation: int)

  /** An event in the merged list: a trace event with the kernel it launched, if any, or
      an operator event. */
  datatype Item =
    | Device(event: Kineto, spawned: Option<nat>)
    | Operator(id: nat, startTime: int, endTime: int)

  datatype Interval = Interval(start: int, end: int, depth: nat)

  // ---------------------------------------------------------------- sorting

  /** Insert behind the elements whose key is not greater. */
  function Insert<T>(s: seq<T>, x: T, key: T -> int): (r: seq<T>)
    decreases |s|
  {
    if s == [] || key(s[|s| - 1]) <= key(x) then s + [x]
    else Insert(s[..|s| - 1], x, key) + [s[|s| - 1]]
  }

  /** The stable sort by a key. */
  function SortBy<T>(s: seq<T>, key: T -> int): (r: seq<T>) {
    if s == [] then [] else Insert(SortBy(s[..|s| - 1], key), s[|s| - 1], key)
  }

  ghost predicate SortedBy<T(!new)>(s: seq<T>, key: T -> int) {
    forall i, j :: 0 <= i < j < |s| ==> key(s[i]) <= key(s[j])
  }

  lemma {:induction false} InsertBag<T(!new)>(s: seq<T>, x: T, key: T -> int)
    ensures multiset(Insert(s, x, key)) == multiset(s) + multiset{x}
    decreases |s|
  {
    if s != [] && key(s[|s| - 1]) > key(x) {
      InsertBag(s[..|s| - 1], x, key);
      assert s == s[..|s| - 1] + [s[|s| - 1]];
    }
  }

  lemma {:induction false} InsertBounded<T(!new)>(s: seq<T>, x: T, key: T -> int, bound: int)
    requires key(x) <= bound && forall i :: 0 <= i < |s| ==> key(s[i]) <= bound
    ensures forall i :: 0 <= i < |Insert(s, x, key)| ==> key(Insert(s, x, key)[i]) <= bound
    decreases |s|
  {
    if s != [] && key(s[|s| - 1]) > key(x) {
      InsertBounded(s[..|s| - 1], x, key, bound);
    }
  }

  lemma {:induction false} InsertSorts<T(!new)>(s: seq<T>, x: T, key: T -> int)
    requires SortedBy(s, key)
    ensures SortedBy(Insert(s, x, key), key)
    decreases |s|
  {
    if s != [] && key(s[|s| - 1]) > key(x) {
      InsertSorts(s[..|s| - 1], x, key);
      InsertBounded(s[..|s| - 1], x, key, key(s[|s| - 1]));
    }
  }

  lemma {:induction false} SortSorts<T(!new)>(s: seq<T>, key: T -> int)
    ensures SortedBy(SortBy(s, key), key) && multiset(SortBy(s, key)) == multiset(s)
  {
    if s != [] {
      assert s == s[..|s| - 1] + [s[|s| - 1]];
      SortSorts(s[..|s| - 1], key);
      InsertSorts(SortBy(s[..|s| - 1], key), s[|s| - 1], key);
      InsertBag(SortBy(s[..|s| - 1], key), s[|s| - 1], key);
    }
  }

  // ---------------------------------------------------------------- launches and kernels

  function OfKind(events: seq<Kineto>, kind: Kind): seq<Kineto> {
    if events == [] then []
    else OfKind(events[..|events| - 1], kind) + (if events[|events| - 1].kind == kind then [events[|events| - 1]] else [])
  }

  /** The position of the first kernel from `from` on with the launch's correlation. */
  ghost predicate FirstMatch(kernels: seq<Kineto>, correlation: int, from: nat, r: Option<nat>) {
    match r
    case None => forall i :: from <= i < |kernels| ==> kernels[i].correlation != correlation
    case Some(p) => from <= p < |kernels| && kernels[p].correlation == correlation &&
                    forall i :: from <= i < p ==> kernels[i].correlation != correlation
  }

  method IndexOfFirstMatch(kernels: seq<Kineto>, correlation: int, from: nat) returns (r: Option<nat>)
    requires from <= |kernels|
    ensures FirstMatch(kernels, correlation, from, r)
  {
    for i := from to |kernels|
      invariant forall j :: from <= j < i ==> kernels[j].correlation != correlation
    {
      if kernels[i].correlation == correlation {
        return Some(i);
      }
    }
    return None;
  }

  /** The last kernel position among the first `n` entries, or zero. */
  function LastMapped(mapping: seq<Option<nat>>, n: nat): nat
    requires n <= |mapping|
  {
    if n == 0 then 0 else if mapping[n - 1].Some? then mapping[n - 1].value else LastMapped(mapping, n - 1)
  }

  ghost predicate NeverDecreases(mapping: seq<Option<nat>>) {
    forall i, j :: 0 <= i < j < |mapping| && mapping[i].Some? && mapping[j].Some? ==> mapping[i].value <= mapping[j].value
  }

  /** Each launch is matched from the position matched last. */
  ghost predicate Matched(launches: seq<Kineto>, kernels: seq<Kineto>, mapping: seq<Option<nat>>) {
    && |mapping| <= |launches|
    && forall k :: 0 <= k < |mapping| ==> FirstMatch(kernels, launches[k].correlation, LastMapped(mapping, k), mapping[k])
  }

  lemma {:induction false} LastMappedPrefix(mapping: seq<Option<nat>>, r: Option<nat>, n: nat)
    requires n <= |mapping|
    ensures LastMapped(mapping + [r], n) == LastMapped(mapping, n)
  {
    if n > 0 {
      LastMappedPrefix(mapping, r, n - 1);
    }
  }

  lemma MatchedNext(launches: seq<Kineto>, kernels: seq<Kineto>, mapping: seq<Option<nat>>, r: Option<nat>)
    requires Matched(launches, kernels, mapping) && |mapping| < |launches|
    requires FirstMatch(kernels, launches[|mapping|].correlation, LastMapped(mapping, |mapping|), r)
    ensures Matched(launches, kernels, mapping + [r])
    ensures LastMapped(mapping + [r], |mapping| + 1) == if r.Some? then r.value else LastMapped(mapping, |mapping|)
  {
    hide FirstMatch;
    forall k | 0 <= k <= |mapping|
      ensures LastMapped(mapping + [r], k) == LastMapped(mapping, k)
    {
      LastMappedPrefix(mapping, r, k);
    }
  }

  lemma MatchedFrom(launches: seq<Kineto>, kernels: seq<Kineto>, mapping: seq<Option<nat>>, k: nat)
    requires Matched(launches, kernels, mapping) && k < |mapping| && mapping[k].Some?
    ensures LastMapped(mapping, k) <= mapping[k].value < |kernels|
  {
    hide LastMapped;
    assert FirstMatch(kernels, launches[k].correlation, LastMapped(mapping, k), mapping[k]);
  }

  lemma {:induction false} MatchedBound(launches: seq<Kineto>, kernels: seq<Kineto>, mapping: seq<Option<nat>>, i: nat, n: nat)
    requires Matched(launches, kernels, mapping) && i < n <= |mapping| && mapping[i].Some?
    ensures mapping[i].value <= LastMapped(mapping, n)
  {
    hide Matched;
    if i < n - 1 {
      MatchedBound(launches, kernels, mapping, i, n - 1);
      if mapping[n - 1].Some? {
        MatchedFrom(launches, kernels, mapping, n - 1);
      }
    }
  }

  /** Earlier positions are not greater, by the way launches are matched. */
  lemma MatchedRises(launches: seq<Kineto>, kernels: seq<Kineto>, mapping: seq<Option<nat>>)
    requires Matched(launches, kernels, mapping)
    ensures NeverDecreases(mapping)
  {
    hide Matched;
    hide LastMapped;
    forall i, j | 0 <= i < j < |mapping| && mapping[i].Some? && mapping[j].Some?
      ensures mapping[i].value <= mapping[j].value
    {
      MatchedBound(launches, kernels, mapping, i, j);
      MatchedFrom(launches, kernels, mapping, j);
    }
  }

  /** Match every launch with the first kernel of its correlation that is not before the
      kernel matched last. The positions never decrease. */
  method MapLaunches(launches: seq<Kineto>, kernels: seq<Kineto>) returns (mapping: seq<Option<nat>>)
    ensures |mapping| == |launches| && Matched(launches, kernels, mapping)
    ensures NeverDecreases(mapping)
  {
    mapping := [];
    var last: nat := 0;
    for k := 0 to |launches|
      invariant |mapping| == k && last <= |kernels| && last == LastMapped(mapping, k)
      invariant Matched(launches, kernels, mapping)
    {
      var index := IndexOfFirstMatch(kernels, launches[k].correlation, last);
      MatchedNext(launches, kernels, mapping, index);
      hide Matched;
      hide LastMapped;
      mapping := mapping + [index];
      if index.Some? {
        last := index.value;
      }
    }
    MatchedRises(launches, kernels, mapping);
  }

  // ---------------------------------------------------------------- the sweep

  /** What the merged list is sorted by. */
  function Key(i: Item): int {
    match i
    case Device(e, _) => if e.startUs.Some? then e.startUs.value * 1000 else e.startNs
    case Operator(_, start, _) => start
  }

  /** The time the sweep uses. */
  function Start(i: Item): int {
    match i
    case Device(e, _) => e.startNs
    case Operator(_, start, _) => start
  }

  function End(i: Item): int {
    match i
    case Device(e, _) => e.startNs + e.durationNs
    case Operator(_, _, end) => end
  }

  /** How many kernels have started by time `t`. */
  function Started(kernels: seq<Kineto>, t: int): nat {
    if kernels == [] then 0
    else Started(kernels[..|kernels| - 1], t) + if kernels[|kernels| - 1].startNs <= t then 1 else 0
  }

  /** The kernel spawned last among the first `n` events, or -1. */
  function LastSpawned(all: seq<Item>, n: nat): int
    requires n <= |all|
  {
    if n == 0 then -1
    else if all[n - 1].Device? && all[n - 1].spawned.Some? then all[n - 1].spawned.value
    else LastSpawned(all, n - 1)
  }

  /** The latest start among the first `n` events. */
  function Peak(all: seq<Item>, n: nat): int
    requires 0 < n <= |all|
  {
    if n == 1 || Peak(all, n - 1) <= Start(all[n - 1]) then Start(all[n - 1]) else Peak(all, n - 1)
  }

  function DepthAt(all: seq<Item>, kernels: seq<Kineto>, k: nat): (d: nat)
    requires k < |all|
  {
    var d := LastSpawned(all, k + 1) + 1 - Started(kernels, Peak(all, k + 1));
    if d < 0 then 0 else d
  }

  /** The intervals of the device events among the first `n`. */
  function Intervals(all: seq<Item>, kernels: seq<Kineto>, n: nat): seq<Interval>
    requires n <= |all|
  {
    if n == 0 then []
    else Intervals(all, kernels, n - 1) +
         (if all[n - 1].Device? then [Interval(Start(all[n - 1]), End(all[n - 1]), DepthAt(all, kernels, n - 1))] else [])
  }

  /** The depth noted for each operator among the first `n`. */
  function OperatorDepths(all: seq<Item>, kernels: seq<Kineto>, n: nat): map<nat, nat>
    requires n <= |all|
  {
    if n == 0 then map[]
    else if all[n - 1].Operator? then OperatorDepths(all, kernels, n - 1)[all[n - 1].id := DepthAt(all, kernels, n - 1)]
    else OperatorDepths(all, kernels, n - 1)
  }

  function StartNs(): Kineto -> int {
    (e: Kineto) => e.startNs
  }

  /** In a sorted list the kernels started by `t` are the first `p` if the next one is later. */
  lemma {:induction false} StartedIsPrefix(kernels: seq<Kineto>, t: int, p: nat)
    requires SortedBy(kernels, StartNs()) && p <= |kernels|
    requires forall j :: 0 <= j < p ==> kernels[j].startNs <= t
    requires p < |kernels| ==> kernels[p].startNs > t
    ensures Started(kernels, t) == p
  {
    if kernels != [] {
      var init := kernels[..|kernels| - 1];
      var last := kernels[|kernels| - 1];
      assert p < |kernels| ==> StartNs()(kernels[p]) <= StartNs()(last) || p == |kernels| - 1;
      StartedIsPrefix(init, t, if p == |kernels| then p - 1 else p);
    }
  }

  /** The pointer stands behind the kernels started by `t`. */
  ghost predicate PointsBehind(kernels: seq<Kineto>, t: int, p: nat) {
    && p <= |kernels|
    && (forall j :: 0 <= j < p ==> kernels[j].startNs <= t)
    && (p < |kernels| ==> kernels[p].startNs > t)
  }

  /** The pointer moved from `from` over the kernels started by `t`. */
  ghost predicate Advanced(kernels: seq<Kineto>, t: int, from: nat, p: nat) {
    && from <= p <= |kernels|
    && (forall j :: from <= j < p ==> kernels[j].startNs <= t)
    && (p < |kernels| ==> kernels[p].startNs > t)
  }

  /** Before any event the pointer is at the first kernel; later it stands behind the kernels
      started by the latest start. */
  ghost predicate PointerAfter(all: seq<Item>, kernels: seq<Kineto>, k: nat, p: nat)
    requires k <= |all|
  {
    p <= |kernels| && if k == 0 then p == 0 else PointsBehind(kernels, Peak(all, k), p)
  }

  /** Move the pointer over the kernels started by `t`; it never moves back. */
  method Advance(kernels: seq<Kineto>, t: int, from: nat) returns (p: nat)
    requires from <= |kernels|
    ensures p <= |kernels| && Advanced(kernels, t, from, p)
  {
    p := from;
    while p < |kernels| && kernels[p].startNs <= t
      invariant from <= p <= |kernels|
      invariant forall j :: from <= j < p ==> kernels[j].startNs <= t
    {
      p := p + 1;
    }
  }

  /** The pointer after one more event. */
  lemma AdvancedBehind(all: seq<Item>, kernels: seq<Kineto>, k: nat, from: nat, p: nat)
    requires k < |all| && PointerAfter(all, kernels, k, from) && Advanced(kernels, Start(all[k]), from, p)
    requires SortedBy(kernels, StartNs())
    ensures PointerAfter(all, kernels, k + 1, p) && Started(kernels, Peak(all, k + 1)) == p
  {
    if from < p < |kernels| && k > 0 {
      assert StartNs()(kernels[from]) <= StartNs()(kernels[p]);
    }
    StartedIsPrefix(kernels, Peak(all, k + 1), p);
  }

  lemma SweepStarts(all: seq<Item>, kernels: seq<Kineto>)
    ensures LastSpawned(all, 0) == -1 && PointerAfter(all, kernels, 0, 0) && Intervals(all, kernels, 0) == [] && OperatorDepths(all, kernels, 0) == map[]
  {
  }

  /** What one event adds to the results. */
  lemma SweepNext(all: seq<Item>, kernels: seq<Kineto>, k: nat)
    requires k < |all|
    ensures LastSpawned(all, k + 1) ==
            if all[k].Device? && all[k].spawned.Some? then all[k].spawned.value else LastSpawned(all, k)
    ensures Intervals(all, kernels, k + 1) ==
            if all[k].Device? then Intervals(all, kernels, k) + [Interval(Start(all[k]), End(all[k]), DepthAt(all, kernels, k))]
            else Intervals(all, kernels, k)
    ensures OperatorDepths(all, kernels, k + 1) ==
            if all[k].Operator? then OperatorDepths(all, kernels, k)[all[k].id := DepthAt(all, kernels, k)]
            else OperatorDepths(all, kernels, k)
  {
    hide DepthAt;
  }

  /** The sweep. At every event the pointer is the number of kernels started by the latest
      start seen so far, and the depth is the last spawned position + 1 less that number. */
  method Sweep(all: seq<Item>, kernels: seq<Kineto>) returns (intervals: seq<Interval>, depths: map<nat, nat>)
    requires SortedBy(kernels, StartNs())
    ensures intervals == Intervals(all, kernels, |all|)
    ensures depths == OperatorDepths(all, kernels, |all|)
  {
    var current: nat, spawned := 0, -1;
    intervals, depths := [], map[];
    hide SortedBy;
    hide Started;
    hide Peak;
    hide LastSpawned;
    hide Intervals;
    hide OperatorDepths;
    hide PointerAfter;
    hide Advanced;
    SweepStarts(all, kernels);
    for k := 0 to |all|
      invariant spawned == LastSpawned(all, k)
      invariant current <= |kernels| && PointerAfter(all, kernels, k, current)
      invariant intervals == Intervals(all, kernels, k)
      invariant depths == OperatorDepths(all, kernels, k)
    {
      var item := all[k];
      if item.Device? && item.spawned.Some? {
        spawned := item.spawned.value;
      }
      ghost var before := current;
      current := Advance(kernels, Start(item), current);
      AdvancedBehind(all, kernels, k, before, current);
      SweepNext(all, kernels, k);
      var depth := spawned - current + 1;
      if depth < 0 {
        depth := 0;
      }
      if item.Device? {
        intervals := intervals + [Interval(Start(item), End(item), depth)];
      } else {
        depths := depths[item.id := depth];
      }
    }
  }

  // ---------------------------------------------------------------- what the pointer counts

  lemma {:induction false} StartedMonotone(kernels: seq<Kineto>, t: int, u: int)
    requires t <= u
    ensures Started(kernels, t) <= Started(kernels, u)
    ensures Started(kernels, t) == Started(kernels, u) <==> !exists j :: 0 <= j < |kernels| && t < kernels[j].startNs <= u
  {
    if kernels != [] {
      var init := kernels[..|kernels| - 1];
      StartedMonotone(init, t, u);
      assert forall j :: 0 <= j < |init| ==> kernels[j] == init[j];
    }
  }

  /** The pointer counts the kernels started by the event's own start exactly when no kernel
      starts after the event and no later than some event before it in the list. */
  lemma PointerIsCountIff(all: seq<Item>, kernels: seq<Kineto>, k: nat)
    requires k < |all|
    ensures Started(kernels, Peak(all, k + 1)) == Started(kernels, Start(all[k])) <==>
            !exists j :: 0 <= j < |kernels| && Start(all[k]) < kernels[j].startNs <= Peak(all, k + 1)
  {
    StartedMonotone(kernels, Start(all[k]), Peak(all, k + 1));
  }

  /** The list is sorted by the times the sweep uses. */
  ghost predicate KeysAreStarts(all: seq<Item>) {
    forall k :: 0 <= k < |all| ==> Key(all[k]) == Start(all[k])
  }

  function ItemKey(): Item -> int {
    (i: Item) => Key(i)
  }

  lemma {:induction false} PeakIsStart(all: seq<Item>, k: nat)
    requires SortedBy(all, ItemKey()) && KeysAreStarts(all) && k < |all|
    ensures Peak(all, k + 1) == Start(all[k])
  {
    if k > 0 {
      PeakIsStart(all, k - 1);
      assert ItemKey()(all[k - 1]) <= ItemKey()(all[k]);
    }
  }

  function AtLeastZero(d: int): nat {
    if d < 0 then 0 else d
  }

  /** The depth by counting: the kernel spawned last, and those started by the event's own start. */
  function CountedDepth(all: seq<Item>, kernels: seq<Kineto>, k: nat): nat
    requires k < |all|
  {
    AtLeastZero(LastSpawned(all, k + 1) + 1 - Started(kernels, Start(all[k])))
  }

  /** No kernel starts after the event and no later than some event before it in the list. */
  ghost predicate NoneBetween(all: seq<Item>, kernels: seq<Kineto>, k: nat)
    requires k < |all|
  {
    !exists j :: 0 <= j < |kernels| && Start(all[k]) < kernels[j].startNs <= Peak(all, k + 1)
  }

  /** For every list, the reported depth is the counted one exactly when no kernel starts in
      between, or the kernel spawned last is among those started by the event. */
  lemma DepthIsCountIff(all: seq<Item>, kernels: seq<Kineto>, k: nat)
    requires k < |all|
    ensures DepthAt(all, kernels, k) == CountedDepth(all, kernels, k) <==>
            NoneBetween(all, kernels, k) || LastSpawned(all, k + 1) < Started(kernels, Start(all[k]))
  {
    hide Started;
    hide LastSpawned;
    hide Peak;
    PeakAtLeast(all, k);
    StartedMonotone(kernels, Start(all[k]), Peak(all, k + 1));
  }

  lemma PeakAtLeast(all: seq<Item>, k: nat)
    requires k < |all|
    ensures Start(all[k]) <= Peak(all, k + 1)
  {
  }

  const LateKernel := Kineto(DeviceKernel, 1900, 10, Some(1), 7)
  const ItsLaunch := Kineto(LaunchKernel, 500, 10, Some(0), 7)

  /** A list sorted by microseconds: an operator at 1500 ns is met after the kernel at 1900 ns
      that a launch at 500 ns has queued. One kernel waits, and the depth reported is 0. */
  lemma MicrosecondsMiscount()
    ensures var all := [Device(ItsLaunch, Some(0)), Device(LateKernel, None), Operator(0, 1500, 1600)];
            && Merged([ItsLaunch], [Some(0)], [LateKernel], [Operator(0, 1500, 1600)]) == all
            && FirstMatch([LateKernel], ItsLaunch.correlation, 0, all[0].spawned)
            && DepthAt(all, [LateKernel], 2) == 0 && CountedDepth(all, [LateKernel], 2) == 1
  {
    var launch, kernel, operator := Device(ItsLaunch, Some(0)), Device(LateKernel, None), Operator(0, 1500, 1600);
    var all: seq<Item> := [launch, kernel, operator];
    assert all[..2] == [launch, kernel];
    assert [launch, kernel][..1] == [launch];
    assert [launch][..0] == [];
    assert SortBy([launch], ItemKey()) == [launch];
    assert SortBy([launch, kernel], ItemKey()) == [launch, kernel];
    assert LaunchItems([ItsLaunch], [Some(0)]) + KernelItems([LateKernel]) + [operator] == all;
    assert Peak(all, 1) == 500 && Peak(all, 2) == 1900 && Peak(all, 3) == 1900;
    assert LastSpawned(all, 1) == 0 && LastSpawned(all, 2) == 0 && LastSpawned(all, 3) == 0;
    StartedOne(LateKernel, 1900);
    StartedOne(LateKernel, 1500);
    hide Started;
  }

  lemma StartedOne(e: Kineto, t: int)
    ensures Started([e], t) == if e.startNs <= t then 1 else 0
  {
    assert [e][..0] == [];
    assert Started([], t) == 0;
  }

  // ---------------------------------------------------------------- launches stay in order

  predicate Spawns(i: Item) {
    i.Device? && i.spawned.Some?
  }

  /** The items that spawn a kernel. */
  function Spawning(all: seq<Item>): seq<Item> {
    if all == [] then []
    else if Spawns(all[|all| - 1]) then Spawning(all[..|all| - 1]) + [all[|all| - 1]]
    else Spawning(all[..|all| - 1])
  }

  lemma {:induction false} SpawningMember(all: seq<Item>, x: Item)
    requires x in Spawning(all)
    ensures x in all && Spawns(x)
  {
    if all != [] && x in Spawning(all[..|all| - 1]) {
      SpawningMember(all[..|all| - 1], x);
    }
  }

  lemma SpawningOnly(all: seq<Item>)
    ensures forall i :: 0 <= i < |Spawning(all)| ==> Spawns(Spawning(all)[i])
  {
    forall i | 0 <= i < |Spawning(all)|
      ensures Spawns(Spawning(all)[i])
    {
      SpawningMember(all, Spawning(all)[i]);
    }
  }

  lemma SpawningNext(all: seq<Item>, x: Item)
    ensures Spawning(all + [x]) == if Spawns(x) then Spawning(all) + [x] else Spawning(all)
  {
    assert (all + [x])[..|all|] == all;
  }

  lemma {:induction false} SpawningConcat(first: seq<Item>, second: seq<Item>)
    ensures Spawning(first + second) == Spawning(first) + Spawning(second)
  {
    if second == [] {
      assert first + second == first;
    } else {
      var init := second[..|second| - 1];
      SpawningConcat(first, init);
      SpawningNext(first + init, second[|second| - 1]);
      assert first + second == first + init + [second[|second| - 1]];
    }
  }

  lemma InsertNext(s: seq<Item>, last: Item, x: Item)
    ensures Insert(s + [last], x, ItemKey()) == if Key(last) <= Key(x) then s + [last] + [x] else Insert(s, x, ItemKey()) + [last]
    ensures Insert([], x, ItemKey()) == [x]
  {
    assert (s + [last])[..|s|] == s;
  }

  lemma SortNext(s: seq<Item>, x: Item)
    ensures SortBy(s + [x], ItemKey()) == Insert(SortBy(s, ItemKey()), x, ItemKey())
  {
    assert (s + [x])[..|s|] == s;
  }

  /** An item no smaller than the others goes to the end. */
  lemma InsertAtEnd(s: seq<Item>, x: Item)
    requires forall i :: 0 <= i < |s| ==> Key(s[i]) <= Key(x)
    ensures Insert(s, x, ItemKey()) == s + [x]
  {
  }

  /** Inserting keeps the order of the items that spawn a kernel. */
  lemma {:induction false} InsertSpawning(s: seq<Item>, x: Item)
    requires SortedBy(s, ItemKey())
    ensures Spawning(Insert(s, x, ItemKey())) == if Spawns(x) then Insert(Spawning(s), x, ItemKey()) else Spawning(s)
    decreases |s|
  {
    hide Insert;
    hide Spawning;
    if s != [] && Key(s[|s| - 1]) > Key(x) {
      var init, last := s[..|s| - 1], s[|s| - 1];
      assert s == init + [last];
      InsertSpawning(init, x);
      SpawningNext(Insert(init, x, ItemKey()), last);
      SpawningNext(init, last);
      InsertNext(init, last, x);
      InsertNext(Spawning(init), last, x);
    } else {
      forall i | 0 <= i < |s|
        ensures Key(s[i]) <= Key(x)
      {
        assert ItemKey()(s[i]) <= ItemKey()(s[|s| - 1]);
      }
      InsertAtEnd(s, x);
      SpawningNext(s, x);
      forall y | y in Spawning(s)
        ensures Key(y) <= Key(x)
      {
        SpawningMember(s, y);
      }
      InsertAtEnd(Spawning(s), x);
    }
  }

  /** Sorting keeps launches of the same time in their order. */
  lemma {:induction false} SortSpawning(s: seq<Item>)
    ensures Spawning(SortBy(s, ItemKey())) == SortBy(Spawning(s), ItemKey())
  {
    if s != [] {
      var init, last := s[..|s| - 1], s[|s| - 1];
      assert s == init + [last];
      SortSpawning(init);
      hide Insert;
      hide SortBy;
      hide Spawning;
      SortSorts(init, ItemKey());
      InsertSpawning(SortBy(init, ItemKey()), last);
      SpawningNext(init, last);
      SortNext(init, last);
      SortNext(Spawning(init), last);
    }
  }

  lemma {:induction false} SortOfSorted(s: seq<Item>)
    requires SortedBy(s, ItemKey())
    ensures SortBy(s, ItemKey()) == s
  {
    if s != [] {
      SortOfSorted(s[..|s| - 1]);
    }
  }

  /** Kernel positions never decrease along the list. */
  ghost predicate SpawnsRise(all: seq<Item>) {
    forall i, j :: 0 <= i < j < |all| && Spawns(all[i]) && Spawns(all[j]) ==> all[i].spawned.value <= all[j].spawned.value
  }

  lemma {:induction false} SpawningRises(all: seq<Item>)
    requires SpawnsRise(Spawning(all))
    ensures SpawnsRise(all)
  {
    if all != [] {
      var init, last := all[..|all| - 1], all[|all| - 1];
      assert all == init + [last];
      SpawningNext(init, last);
      assert SpawnsRise(Spawning(init)) by {
        assert forall i :: 0 <= i < |Spawning(init)| ==> Spawning(init)[i] == Spawning(all)[i];
      }
      SpawningRises(init);
      forall i | 0 <= i < |init| && Spawns(init[i]) && Spawns(last)
        ensures init[i].spawned.value <= last.spawned.value
      {
        SpawningHas(init, i);
        var j :| 0 <= j < |Spawning(init)| && Spawning(init)[j] == init[i];
        assert Spawning(all)[j] == init[i] && Spawning(all)[|Spawning(init)|] == last;
      }
    }
  }

  lemma {:induction false} SpawningHas(all: seq<Item>, i: nat)
    requires i < |all| && Spawns(all[i])
    ensures all[i] in Spawning(all)
  {
    if i < |all| - 1 {
      SpawningHas(all[..|all| - 1], i);
    }
  }

  lemma {:induction false} LastSpawnedIsMost(all: seq<Item>, n: nat, i: nat)
    requires SpawnsRise(all) && i < n <= |all| && Spawns(all[i])
    ensures all[i].spawned.value <= LastSpawned(all, n)
  {
    if i < n - 1 && !Spawns(all[n - 1]) {
      LastSpawnedIsMost(all, n - 1, i);
    }
  }

  // ---------------------------------------------------------------- the whole computation

  function LaunchItems(launches: seq<Kineto>, mapping: seq<Option<nat>>): (r: seq<Item>)
    requires |launches| == |mapping|
  {
    seq(|launches|, k requires 0 <= k < |launches| => Device(launches[k], mapping[k]))
  }

  function KernelItems(kernels: seq<Kineto>): (r: seq<Item>) {
    seq(|kernels|, k requires 0 <= k < |kernels| => Device(kernels[k], None))
  }

  /** The merged list of a trace. */
  function Merged(launches: seq<Kineto>, mapping: seq<Option<nat>>, kernels: seq<Kineto>, operators: seq<Item>): seq<Item>
    requires |launches| == |mapping|
  {
    SortBy(LaunchItems(launches, mapping) + KernelItems(kernels) + operators, ItemKey())
  }

  function KeyOf(e: Kineto): int {
    Key(Device(e, None))
  }

  /** Later launches are not listed before earlier ones. */
  ghost predicate KeysRise(launches: seq<Kineto>) {
    forall i, j :: 0 <= i < j < |launches| ==> KeyOf(launches[i]) <= KeyOf(launches[j])
  }

  ghost predicate NanosecondsOnly(events: seq<Kineto>) {
    forall k :: 0 <= k < |events| ==> events[k].startUs.None?
  }

  lemma {:induction false} NoneSpawn(all: seq<Item>)
    requires forall k :: 0 <= k < |all| ==> !Spawns(all[k])
    ensures Spawning(all) == []
  {
    if all != [] {
      NoneSpawn(all[..|all| - 1]);
    }
  }

  /** Launches matched in the order of their starts: no later event spawns an earlier kernel. */
  lemma MergedSpawnsRise(launches: seq<Kineto>, mapping: seq<Option<nat>>, kernels: seq<Kineto>, operators: seq<Item>)
    requires |launches| == |mapping| && NeverDecreases(mapping) && KeysRise(launches)
    requires forall k :: 0 <= k < |operators| ==> operators[k].Operator?
    ensures SpawnsRise(Merged(launches, mapping, kernels, operators))
  {
    var items, rest := LaunchItems(launches, mapping), KernelItems(kernels) + operators;
    assert LaunchItems(launches, mapping) + KernelItems(kernels) + operators == items + rest;
    LaunchItemsSorted(launches, mapping);
    assert SpawnsRise(items);
    assert forall k :: 0 <= k < |rest| ==> !Spawns(rest[k]);
    SortedSpawnsRise(items, rest);
  }

  /** Sorting in items that spawn nothing keeps the order of those that do. */
  lemma SortedSpawnsRise(items: seq<Item>, rest: seq<Item>)
    requires SortedBy(items, ItemKey()) && SpawnsRise(items) && forall k :: 0 <= k < |rest| ==> !Spawns(rest[k])
    ensures SpawnsRise(SortBy(items + rest, ItemKey()))
  {
    hide Spawning;
    hide SortBy;
    hide SpawnsRise;
    hide SortedBy;
    SortSpawning(items + rest);
    SpawningConcat(items, rest);
    NoneSpawn(rest);
    SortSpawning(items);
    SortOfSorted(items);
    RisingSpawning(items);
    assert Spawning(items) + [] == Spawning(items);
    SpawningRises(SortBy(items + rest, ItemKey()));
  }

  lemma LaunchItemsSorted(launches: seq<Kineto>, mapping: seq<Option<nat>>)
    requires |launches| == |mapping| && KeysRise(launches)
    ensures SortedBy(LaunchItems(launches, mapping), ItemKey())
  {
  }

  /** Launches in the order of their starts are in the order of their keys. */
  lemma NanosecondKeysRise(launches: seq<Kineto>)
    requires SortedBy(launches, StartNs()) && NanosecondsOnly(launches)
    ensures KeysRise(launches)
  {
    forall i, j | 0 <= i < j < |launches|
      ensures KeyOf(launches[i]) <= KeyOf(launches[j])
    {
      assert StartNs()(launches[i]) <= StartNs()(launches[j]);
    }
  }

  /** So they are if every launch offers its start rounded down to microseconds. */
  lemma RoundedKeysRise(launches: seq<Kineto>)
    requires SortedBy(launches, StartNs())
    requires forall k :: 0 <= k < |launches| ==> launches[k].startUs == Some(launches[k].startNs / 1000)
    ensures KeysRise(launches)
  {
    forall i, j | 0 <= i < j < |launches|
      ensures KeyOf(launches[i]) <= KeyOf(launches[j])
    {
      assert StartNs()(launches[i]) <= StartNs()(launches[j]);
    }
  }

  lemma {:induction false} RisingSpawning(all: seq<Item>)
    requires SpawnsRise(all)
    ensures SpawnsRise(Spawning(all))
  {
    if all != [] {
      var init, last := all[..|all| - 1], all[|all| - 1];
      RisingSpawning(init);
      SpawningOnly(init);
      forall i | 0 <= i < |Spawning(init)| && Spawns(last)
        ensures Spawning(init)[i].spawned.value <= last.spawned.value
      {
        SpawningMember(init, Spawning(init)[i]);
        var j :| 0 <= j < |init| && init[j] == Spawning(init)[i];
        assert all[j] == init[j];
      }
    }
  }

  /** Launches in the order of their starts. */
  function Launches(events: seq<Kineto>): seq<Kineto> {
    SortBy(OfKind(events, LaunchKernel), StartNs())
  }

  /** Kernels in the order of their starts. */
  function Kernels(events: seq<Kineto>): seq<Kineto> {
    SortBy(OfKind(events, DeviceKernel), StartNs())
  }

  lemma {:induction false} OfKindMember(events: seq<Kineto>, kind: Kind, e: Kineto)
    ensures e in OfKind(events, kind) <==> e in events && e.kind == kind
  {
    if events != [] {
      OfKindMember(events[..|events| - 1], kind, e);
      assert events == events[..|events| - 1] + [events[|events| - 1]];
    }
  }

  lemma SortedMember<T(!new)>(s: seq<T>, key: T -> int, x: T)
    requires x in SortBy(s, key)
    ensures x in s
  {
    SortSorts(s, key);
    assert x in multiset(SortBy(s, key));
  }

  lemma SelectedMember(events: seq<Kineto>, kind: Kind, e: Kineto)
    requires e in SortBy(OfKind(events, kind), StartNs())
    ensures e in events
  {
    SortedMember(OfKind(events, kind), StartNs(), e);
    OfKindMember(events, kind, e);
  }

  /** Without microseconds the merged list is sorted by the very times the sweep uses. */
  lemma MergedByStart(events: seq<Kineto>, mapping: seq<Option<nat>>, operators: seq<Item>)
    requires NanosecondsOnly(events) && |mapping| == |Launches(events)|
    requires forall k :: 0 <= k < |operators| ==> operators[k].Operator?
    ensures NanosecondsOnly(Launches(events))
    ensures var all := Merged(Launches(events), mapping, Kernels(events), operators);
            SortedBy(all, ItemKey()) && KeysAreStarts(all)
  {
    var items, kernels := LaunchItems(Launches(events), mapping), KernelItems(Kernels(events));
    var all := Merged(Launches(events), mapping, Kernels(events), operators);
    forall e | e in Launches(events) || e in Kernels(events)
      ensures e.startUs.None?
    {
      SelectedMember(events, if e in Launches(events) then LaunchKernel else DeviceKernel, e);
    }
    SortSorts(items + kernels + operators, ItemKey());
    forall k | 0 <= k < |all|
      ensures Key(all[k]) == Start(all[k])
    {
      SortedMember(items + kernels + operators, ItemKey(), all[k]);
      assert all[k] in items || all[k] in kernels || all[k] in operators;
    }
  }

  /** For every trace: the depth reported at an event is the counted one exactly when no kernel
      starts between the event and the latest start before it in the list, or the kernel spawned
      last has started; it always is where starts are known in nanoseconds only. The kernel
      spawned last is the greatest position launched so far if launches are listed in order. */
  lemma DepthCounts(events: seq<Kineto>, mapping: seq<Option<nat>>, operators: seq<Item>, k: nat)
    requires |mapping| == |Launches(events)| && NeverDecreases(mapping)
    requires forall i :: 0 <= i < |operators| ==> operators[i].Operator?
    requires k < |Merged(Launches(events), mapping, Kernels(events), operators)|
    ensures var all, kernels := Merged(Launches(events), mapping, Kernels(events), operators), Kernels(events);
            && (DepthAt(all, kernels, k) == CountedDepth(all, kernels, k) <==>
                  NoneBetween(all, kernels, k) || LastSpawned(all, k + 1) < Started(kernels, Start(all[k])))
            && (NanosecondsOnly(events) ==> DepthAt(all, kernels, k) == CountedDepth(all, kernels, k) && KeysRise(Launches(events)))
            && (KeysRise(Launches(events)) ==>
                  forall i :: 0 <= i <= k && Spawns(all[i]) ==> all[i].spawned.value <= LastSpawned(all, k + 1))
  {
    hide Merged;
    hide Launches;
    hide Kernels;
    hide SortedBy;
    hide SpawnsRise;
    hide LastSpawned;
    hide Started;
    hide Peak;
    hide KeysRise;
    hide NoneBetween;
    hide CountedDepth;
    hide DepthAt;
    var all, kernels := Merged(Launches(events), mapping, Kernels(events), operators), Kernels(events);
    DepthIsCountIff(all, kernels, k);
    if NanosecondsOnly(events) {
      MergedByStart(events, mapping, operators);
      NanosecondDepth(all, kernels, k);
      LaunchesSorted(events);
      NanosecondKeysRise(Launches(events));
    }
    if KeysRise(Launches(events)) {
      MergedSpawnsRise(Launches(events), mapping, kernels, operators);
      LastIsGreatest(all, k);
    }
  }

  lemma LaunchesSorted(events: seq<Kineto>)
    ensures SortedBy(Launches(events), StartNs())
  {
    SortSorts(OfKind(events, LaunchKernel), StartNs());
  }

  lemma NanosecondDepth(all: seq<Item>, kernels: seq<Kineto>, k: nat)
    requires SortedBy(all, ItemKey()) && KeysAreStarts(all) && k < |all|
    ensures DepthAt(all, kernels, k) == CountedDepth(all, kernels, k)
  {
    hide SortedBy;
    hide LastSpawned;
    hide Started;
    hide Peak;
    PeakIsStart(all, k);
  }

  lemma LastIsGreatest(all: seq<Item>, k: nat)
    requires SpawnsRise(all) && k < |all|
    ensures forall i :: 0 <= i <= k && Spawns(all[i]) ==> all[i].spawned.value <= LastSpawned(all, k + 1)
  {
    hide SpawnsRise;
    hide LastSpawned;
    forall i | 0 <= i <= k && Spawns(all[i])
      ensures all[i].spawned.value <= LastSpawned(all, k + 1)
    {
      LastSpawnedIsMost(all, k + 1, i);
    }
  }

  /** Queue depths of a whole trace: the matching, the intervals of the device events and
      the depth of each operator. */
  method ComputeQueueDepth(events: seq<Kineto>, operators: seq<Item>)
      returns (mapping: seq<Option<nat>>, intervals: seq<Interval>, depths: map<nat, nat>)
    requires forall k :: 0 <= k < |operators| ==> operators[k].Operator?
    ensures |mapping| == |Launches(events)| && Matched(Launches(events), Kernels(events), mapping) && NeverDecreases(mapping)
    ensures var all := Merged(Launches(events), mapping, Kernels(events), operators);
            intervals == Intervals(all, Kernels(events), |all|) && depths == OperatorDepths(all, Kernels(events), |all|)
  {
    var launches, kernels := Launches(events), Kernels(events);
    mapping := MapLaunches(launches, kernels);
    SortSorts(OfKind(events, DeviceKernel), StartNs());
    intervals, depths := Sweep(Merged(launches, mapping, kernels, operators), kernels);
  }
}
