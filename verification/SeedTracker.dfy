/**
 Seeding before the runtime is initialized: calls are queued, but of the seeding calls only
 the latest of each kind is kept. Initialization drains the queue.
 */
module SeedTracker {
  import opened Options

  /** What a device's default generator was last set to. */
  datatype Generator = Untouched | Seeded(seed: int) | Restored(state: int)

  /** `manual_seed`, `manual_seed_all` and `set_rng_state` on a device. */
  datatype Call = Seed(seed: int) | SeedAll(seed: int) | SetState(device: nat, state: int)

  // ---------------------------------------------------------------- the eager meaning

  /** The call writes the generator of device `d`, when `dev` is the current device. */
  predicate Covers(c: Call, dev: nat, d: nat) {
    match c
    case Seed(_) => d == dev
    case SeedAll(_) => true
    case SetState(device, _) => d == device
  }

  function Written(c: Call): Generator {
    if c.SetState? then Restored(c.state) else Seeded(c.seed)
  }

  function Apply(gens: seq<Generator>, dev: nat, c: Call): (r: seq<Generator>)
    ensures |r| == |gens|
  {
    seq(|gens|, d requires 0 <= d < |gens| => if Covers(c, dev, d) then Written(c) else gens[d])
  }

  /** Run the calls one after the other. */
  function ApplyAll(gens: seq<Generator>, dev: nat, calls: seq<Call>): (r: seq<Generator>)
    ensures |r| == |gens|
  {
    if calls == [] then gens
    else Apply(ApplyAll(gens, dev, calls[..|calls| - 1]), dev, calls[|calls| - 1])
  }

  // ---------------------------------------------------------------- what is kept

  /** The tracker's two slots and its call order, and the queue of other calls. */
  datatype Kept = Kept(seedAll: Option<Call>, seed: Option<Call>, order: seq<Option<Call>>, queued: seq<Call>)

  const Empty := Kept(None, None, [], [])

  function Keep(k: Kept, c: Call): Kept {
    match c
    case SeedAll(_) => k.(seedAll := Some(c), order := [k.seed, Some(c)])
    case Seed(_) => k.(seed := Some(c), order := [k.seedAll, Some(c)])
    case SetState(_, _) => k.(queued := k.queued + [c])
  }

  /** What is kept of a history of calls. */
  function KeptOf(history: seq<Call>): Kept {
    if history == [] then Empty else Keep(KeptOf(history[..|history| - 1]), history[|history| - 1])
  }

  function Present(order: seq<Option<Call>>): seq<Call> {
    if order == [] then []
    else
      var rest := Present(order[..|order| - 1]);
      if order[|order| - 1].Some? then rest + [order[|order| - 1].value] else rest
  }

  /** The calls that initialization runs. */
  function Drained(k: Kept): seq<Call> {
    k.queued + Present(k.order)
  }

  // ---------------------------------------------------------------- the last write wins

  /** What the calls leave in the generator of `d`, if they write it. */
  function LastWrite(calls: seq<Call>, dev: nat, d: nat): Option<Generator> {
    if calls == [] then None
    else if Covers(calls[|calls| - 1], dev, d) then Some(Written(calls[|calls| - 1]))
    else LastWrite(calls[..|calls| - 1], dev, d)
  }

  lemma {:induction false} ApplyAllAt(gens: seq<Generator>, dev: nat, calls: seq<Call>, d: nat)
    requires d < |gens|
    ensures ApplyAll(gens, dev, calls)[d] == match LastWrite(calls, dev, d) case Some(g) => g case None => gens[d]
  {
    if calls != [] {
      ApplyAllAt(gens, dev, calls[..|calls| - 1], d);
    }
  }

  lemma {:induction false} LastWriteConcat(first: seq<Call>, second: seq<Call>, dev: nat, d: nat)
    ensures LastWrite(first + second, dev, d) ==
            if LastWrite(second, dev, d).Some? then LastWrite(second, dev, d) else LastWrite(first, dev, d)
  {
    if second == [] {
      assert first + second == first;
    } else {
      LastWriteConcat(first, second[..|second| - 1], dev, d);
      assert (first + second)[..|first + second| - 1] == first + second[..|second| - 1];
    }
  }

  /** The seeding calls, or the others, of a history. */
  function Only(history: seq<Call>, seeding: bool): seq<Call> {
    if history == [] then []
    else
      var init, last := Only(history[..|history| - 1], seeding), history[|history| - 1];
      if last.SetState? != seeding then init + [last] else init
  }

  lemma {:induction false} QueueHasOthers(history: seq<Call>)
    ensures KeptOf(history).queued == Only(history, false)
  {
    if history != [] {
      QueueHasOthers(history[..|history| - 1]);
    }
  }

  function Latest(history: seq<Call>, all: bool): Option<Call> {
    if history == [] then None
    else
      var last := history[|history| - 1];
      if !last.SetState? && last.SeedAll? == all then Some(last) else Latest(history[..|history| - 1], all)
  }

  lemma {:induction false} SlotsHaveLatest(history: seq<Call>)
    ensures KeptOf(history).seed == Latest(history, false) && KeptOf(history).seedAll == Latest(history, true)
  {
    if history != [] {
      SlotsHaveLatest(history[..|history| - 1]);
    }
  }

  /** The seeding calls leave what the latest one that covers the device leaves. */
  lemma {:induction false} LatestWrites(history: seq<Call>, dev: nat, d: nat)
    ensures d != dev ==> LastWrite(Only(history, true), dev, d) == WriteOf(Latest(history, true))
    ensures d == dev && Latest(history, false).None? ==> LastWrite(Only(history, true), dev, d) == WriteOf(Latest(history, true))
    ensures d == dev && Latest(history, true).None? ==> LastWrite(Only(history, true), dev, d) == WriteOf(Latest(history, false))
    ensures Latest(history, true).Some? ==> Latest(history, true).value.SeedAll?
    ensures Latest(history, false).Some? ==> Latest(history, false).value.Seed?
  {
    if history != [] {
      LatestWrites(history[..|history| - 1], dev, d);
      var init, last := Only(history[..|history| - 1], true), history[|history| - 1];
      assert (init + [last])[..|init|] == init;
    }
  }

  function WriteOf(c: Option<Call>): Option<Generator> {
    if c.Some? then Some(Written(c.value)) else None
  }

  lemma LastWriteNext(calls: seq<Call>, c: Call, dev: nat, d: nat)
    ensures LastWrite(calls + [c], dev, d) == if Covers(c, dev, d) then Some(Written(c)) else LastWrite(calls, dev, d)
  {
    assert (calls + [c])[..|calls|] == calls;
  }

  lemma PresentNext(order: seq<Option<Call>>, c: Option<Call>)
    ensures Present(order + [c]) == if c.Some? then Present(order) + [c.value] else Present(order)
  {
    assert (order + [c])[..|order|] == order;
  }

  lemma PairWrites(other: Option<Call>, last: Call, dev: nat, d: nat)
    ensures LastWrite(Present([other, Some(last)]), dev, d) ==
            if Covers(last, dev, d) then Some(Written(last))
            else if other.Some? && Covers(other.value, dev, d) then Some(Written(other.value)) else None
  {
    assert [other, Some(last)] == ([] + [other]) + [Some(last)];
    PresentNext([], other);
    PresentNext([] + [other], Some(last));
    LastWriteNext(Present([] + [other]), last, dev, d);
    if other.Some? {
      LastWriteNext([], other.value, dev, d);
    }
  }

  /** The two slots, in their order, do what all the seeding calls do. */
  lemma {:induction false} SlotsSuffice(history: seq<Call>, dev: nat, d: nat)
    ensures LastWrite(Present(KeptOf(history).order), dev, d) == LastWrite(Only(history, true), dev, d)
  {
    if history != [] {
      var before, last := history[..|history| - 1], history[|history| - 1];
      SlotsSuffice(before, dev, d);
      SlotsHaveLatest(before);
      LatestWrites(before, dev, d);
      LastWriteNext(Only(before, true), last, dev, d);
      PairWrites(KeptOf(before).seedAll, last, dev, d);
      PairWrites(KeptOf(before).seed, last, dev, d);
      hide LastWrite;
      hide Present;
      hide Latest;
    }
  }

  // ---------------------------------------------------------------- draining

  /** Call `j` is the last one that writes the generator of `d`. */
  ghost predicate LastAt(history: seq<Call>, dev: nat, d: nat, j: nat) {
    j < |history| && Covers(history[j], dev, d) && forall k :: j < k < |history| ==> !Covers(history[k], dev, d)
  }

  predicate Seeds(c: Call, dev: nat, d: nat) {
    !c.SetState? && Covers(c, dev, d)
  }

  /** The device is seeded, and the last write to its generator is a `set_rng_state`. */
  ghost predicate RestoredAfterSeed(history: seq<Call>, dev: nat, d: nat) {
    && SeedsSome(history, dev, d)
    && (exists j: nat :: LastAt(history, dev, d, j) && history[j].SetState?)
  }

  lemma {:induction false} LastWriteAt(history: seq<Call>, dev: nat, d: nat) returns (j: nat)
    ensures LastWrite(history, dev, d).None? ==> forall k :: 0 <= k < |history| ==> !Covers(history[k], dev, d)
    ensures LastWrite(history, dev, d).Some? ==>
              LastAt(history, dev, d, j) && LastWrite(history, dev, d) == Some(Written(history[j]))
  {
    j := 0;
    if history != [] {
      if Covers(history[|history| - 1], dev, d) {
        j := |history| - 1;
      } else {
        j := LastWriteAt(history[..|history| - 1], dev, d);
      }
    }
  }

  /** Some call of the history seeds the device. */
  ghost predicate SeedsSome(history: seq<Call>, dev: nat, d: nat) {
    exists i :: 0 <= i < |history| && Seeds(history[i], dev, d)
  }

  lemma SeedsSomeNext(before: seq<Call>, last: Call, dev: nat, d: nat)
    ensures SeedsSome(before + [last], dev, d) <==> SeedsSome(before, dev, d) || Seeds(last, dev, d)
  {
    var history := before + [last];
    if SeedsSome(before, dev, d) {
      var i :| 0 <= i < |before| && Seeds(before[i], dev, d);
      assert Seeds(history[i], dev, d);
    }
    if Seeds(last, dev, d) {
      assert Seeds(history[|before|], dev, d);
    }
  }

  lemma OnlyNext(before: seq<Call>, last: Call, seeding: bool)
    ensures Only(before + [last], seeding) == if last.SetState? != seeding then Only(before, seeding) + [last] else Only(before, seeding)
  {
    assert (before + [last])[..|before|] == before;
  }

  /** The last write of a history, given those of its seeding and of its other calls. */
  ghost predicate Merges(history: seq<Call>, dev: nat, d: nat) {
    var w, s, o := LastWrite(history, dev, d), LastWrite(Only(history, true), dev, d), LastWrite(Only(history, false), dev, d);
    && (s.Some? ==> s.value.Seeded?)
    && (s.Some? <==> SeedsSome(history, dev, d))
    && w == if s.Some? && !(w.Some? && w.value.Restored?) then s else o
  }

  lemma MergesNext(before: seq<Call>, last: Call, dev: nat, d: nat)
    requires Merges(before, dev, d)
    ensures Merges(before + [last], dev, d)
  {
    hide LastWrite;
    hide Only;
    hide SeedsSome;
    SeedsSomeNext(before, last, dev, d);
    OnlyNext(before, last, true);
    OnlyNext(before, last, false);
    LastWriteNext(before, last, dev, d);
    LastWriteNext(Only(before, true), last, dev, d);
    LastWriteNext(Only(before, false), last, dev, d);
  }

  /** A history's last write is the last seeding or the last other write. */
  lemma {:induction false} WritesMerge(history: seq<Call>, dev: nat, d: nat)
    ensures Merges(history, dev, d)
  {
    if history != [] {
      WritesMerge(history[..|history| - 1], dev, d);
      hide Merges;
      MergesNext(history[..|history| - 1], history[|history| - 1], dev, d);
      assert history == history[..|history| - 1] + [history[|history| - 1]];
    }
  }

  /** Draining leaves the generator of `d` as running the history would, unless the device was
      seeded and set again after that: seeds are drained behind the other calls. */
  lemma DrainedAtIff(history: seq<Call>, gens: seq<Generator>, dev: nat, d: nat)
    requires d < |gens|
    ensures ApplyAll(gens, dev, Drained(KeptOf(history)))[d] == ApplyAll(gens, dev, history)[d] <==>
            !RestoredAfterSeed(history, dev, d)
  {
    var kept := KeptOf(history);
    ApplyAllAt(gens, dev, Drained(kept), d);
    ApplyAllAt(gens, dev, history, d);
    LastWriteConcat(kept.queued, Present(kept.order), dev, d);
    QueueHasOthers(history);
    SlotsSuffice(history, dev, d);
    WritesMerge(history, dev, d);
    var j := LastWriteAt(history, dev, d);
  }

  /** A device is seeded and its state is then restored: run in order the state stays restored,
      drained the seed comes last. */
  lemma SeedOvertakesState()
    ensures var history, gens := [Seed(1), SetState(0, 2)], [Restored(0)];
            && ApplyAll(gens, 0, history)[0] == Restored(2)
            && ApplyAll(gens, 0, Drained(KeptOf(history)))[0] == Seeded(1)
  {
    var history, gens := [Seed(1), SetState(0, 2)], [Restored(0)];
    assert history[..1] == [Seed(1)];
    assert [Seed(1)][..0] == [];
    var kept := KeptOf(history);
    assert kept == Kept(None, Some(Seed(1)), [None, Some(Seed(1))], [SetState(0, 2)]);
    PairWrites(None, Seed(1), 0, 0);
    LastWriteConcat(kept.queued, Present(kept.order), 0, 0);
    ApplyAllAt(gens, 0, Drained(kept), 0);
    ApplyAllAt(gens, 0, history, 0);
  }

  /** For a history of seeding calls only, draining the two slots leaves every generator as
      running the whole history would. */
  lemma SeedsDrainExactly(history: seq<Call>, gens: seq<Generator>, dev: nat)
    requires forall k :: 0 <= k < |history| ==> !history[k].SetState?
    ensures ApplyAll(gens, dev, Drained(KeptOf(history))) == ApplyAll(gens, dev, history)
  {
    forall d: nat | d < |gens|
      ensures ApplyAll(gens, dev, Drained(KeptOf(history)))[d] == ApplyAll(gens, dev, history)[d]
    {
      DrainedAtIff(history, gens, dev, d);
    }
  }

  // ---------------------------------------------------------------- the runtime

  class LazySeedTracker {
    var seedAll: Option<Call>
    var seed: Option<Call>
    var order: seq<Option<Call>>

    constructor ()
      ensures seedAll == None && seed == None && order == []
    {
      seedAll, seed, order := None, None, [];
    }

    method QueueSeedAll(c: Call)
      modifies this
      ensures seedAll == Some(c) && seed == old(seed) && order == [old(seed), Some(c)]
    {
      seedAll := Some(c);
      order := [seed, seedAll];
    }

    method QueueSeed(c: Call)
      modifies this
      ensures seed == Some(c) && seedAll == old(seedAll) && order == [old(seedAll), Some(c)]
    {
      seed := Some(c);
      order := [seedAll, seed];
    }
  }

  class Runtime {
    var initialized: bool
    var queued: seq<Call>
    const tracker: LazySeedTracker
    const generators: array<Generator>
    const device: nat

    /** Nothing has run yet, and what is kept is what is kept of this history. */
    ghost predicate Waits(history: seq<Call>)
      reads this, tracker
    {
      !initialized && Kept(tracker.seedAll, tracker.seed, tracker.order, queued) == KeptOf(history)
    }

    constructor (devices: nat, device: nat)
      ensures Waits([]) && generators.Length == devices && this.device == device
      ensures fresh(tracker) && fresh(generators)
      ensures forall d :: 0 <= d < devices ==> generators[d] == Untouched
    {
      initialized, queued := false, [];
      tracker := new LazySeedTracker();
      generators := new Generator[devices](_ => Untouched);
      this.device := device;
    }

    /** Run a call now. */
    method Perform(c: Call)
      modifies generators
      ensures generators[..] == Apply(old(generators[..]), device, c)
    {
      match c {
        case Seed(n) =>
          if device < generators.Length {
            generators[device] := Seeded(n);
          }
        case SeedAll(n) =>
          for i := 0 to generators.Length
            invariant forall d :: 0 <= d < generators.Length ==>
                        generators[d] == if d < i then Seeded(n) else old(generators[d])
          {
            generators[i] := Seeded(n);
          }
        case SetState(d, v) =>
          if d < generators.Length {
            generators[d] := Restored(v);
          }
      }
    }

    /** Run a call now, or keep it for the initialization. */
    method LazyCall(c: Call, ghost history: seq<Call>)
      requires !initialized ==> Waits(history)
      modifies this, tracker, generators
      ensures initialized == old(initialized)
      ensures old(initialized) ==> generators[..] == Apply(old(generators[..]), device, c)
      ensures !old(initialized) ==> Waits(history + [c]) && generators[..] == old(generators[..])
    {
      if initialized {
        Perform(c);
        return;
      }
      assert (history + [c])[..|history|] == history;
      match c {
        case SeedAll(_) => tracker.QueueSeedAll(c);
        case Seed(_) => tracker.QueueSeed(c);
        case SetState(_, _) => queued := queued + [c];
      }
    }

    /** Drain the queue, the kept seeds last. */
    method LazyInit(ghost history: seq<Call>)
      requires !initialized ==> Waits(history)
      modifies this, generators
      ensures initialized
      ensures old(initialized) ==> generators[..] == old(generators[..])
      ensures !old(initialized) ==> generators[..] == ApplyAll(old(generators[..]), device, Drained(KeptOf(history)))
      ensures !old(initialized) && (forall k :: 0 <= k < |history| ==> !history[k].SetState?) ==>
                generators[..] == ApplyAll(old(generators[..]), device, history)
    {
      if initialized {
        return;
      }
      for k := 0 to |tracker.order|
        modifies this`queued
        invariant queued == old(queued) + Present(tracker.order[..k])
      {
        assert tracker.order[..k + 1][..k] == tracker.order[..k];
        if tracker.order[k].Some? {
          queued := queued + [tracker.order[k].value];
        }
      }
      assert tracker.order[..|tracker.order|] == tracker.order;
      assert queued == Drained(KeptOf(history));
      for k := 0 to |queued|
        modifies generators
        invariant generators[..] == ApplyAll(old(generators[..]), device, queued[..k])
      {
        assert queued[..k + 1][..k] == queued[..k];
        Perform(queued[k]);
      }
      assert queued[..|queued|] == queued;
      initialized := true;
      if forall k :: 0 <= k < |history| ==> !history[k].SetState? {
        SeedsDrainExactly(history, old(generators[..]), device);
      }
    }
  }

  /** `manual_seed` seeds the current device and no other; `manual_seed_all` seeds every device. */
  lemma SeedsReachTheirDevices(gens: seq<Generator>, dev: nat, n: int, d: nat)
    requires d < |gens|
    ensures Apply(gens, dev, Seed(n))[d] == if d == dev then Seeded(n) else gens[d]
    ensures Apply(gens, dev, SeedAll(n))[d] == Seeded(n)
  {
  }

  /** A last `manual_seed_all` decides every generator, whatever was queued before it. */
  lemma LastSeedAllWins(history: seq<Call>, n: int, gens: seq<Generator>, dev: nat, d: nat)
    requires d < |gens|
    ensures ApplyAll(gens, dev, Drained(KeptOf(history + [SeedAll(n)])))[d] == Seeded(n)
  {
    var kept := KeptOf(history + [SeedAll(n)]);
    assert (history + [SeedAll(n)])[..|history|] == history;
    assert kept.order == [KeptOf(history).seed, Some(SeedAll(n))];
    PairWrites(KeptOf(history).seed, SeedAll(n), dev, d);
    LastWriteConcat(kept.queued, Present(kept.order), dev, d);
    ApplyAllAt(gens, dev, Drained(kept), d);
  }
}
