/**
 Which way a call goes: eager for a mutation it must not record, replayed if a child
 passes.
 */
module Dispatch {
  import opened Options
  import opened Storages
  import opened PathIndices
  import opened TreeState
  import opened PathOps
  import opened Recordings
  import opened Replays
  import opened Warmups
  import opened Calls
  import opened CallProofs
  import opened CallEffects

  // ---------------------------------------------------------------- mutated inputs

  /** The tensor is at the address of an output of the current path; behind a warmup node the
      output must be live. */
  ghost predicate OnPath(s: State, t: Input) {
    && t.Tensor? && s.current.Some?
    && exists d: nat, i: nat ::
         && InPath(s.slots, CurPath(s), d, i) && SlotAt(s.slots, CurPath(s), d, i).ptr == t.base
         && (AtGraphNode(s) || LiveAt(s.heap, s.slots, CurPath(s), d, i))
  }

  lemma RecognisedIff(s: State, t: Input)
    ensures RecognisedByCurrent(s, t) <==> OnPath(s, t)
  {
    if t.Tensor? && s.current.Some? {
      if AtGraphNode(s) {
        RecordedTensorIff(s.slots, CurPath(s), t);
      } else {
        ScannedIff(s.heap, s.slots, CurPath(s), t.base);
      }
    }
    hide IsRecordedTensor;
    hide ScannedWeakrefs;
    hide Addresses;
    hide LiveAt;
  }

  lemma RecordedTensorIff(slots: Slots, path: seq<GraphId>, t: Input)
    ensures IsRecordedTensor(slots, path, t) <==>
            t.Tensor? && exists d: nat, i: nat :: InPath(slots, path, d, i) && SlotAt(slots, path, d, i).ptr == t.base
  {
    if t.Tensor? && exists d: nat, i: nat :: InPath(slots, path, d, i) && SlotAt(slots, path, d, i).ptr == t.base {
      var d: nat, i: nat :| InPath(slots, path, d, i) && SlotAt(slots, path, d, i).ptr == t.base;
      assert 0 <= d < |path| && 0 <= i < |RowAt(slots, path[d])|;
    }
  }

  /** The scan of a path lists the addresses of its live outputs. */
  lemma ScannedIff(h: Heap, slots: Slots, path: seq<GraphId>, a: Addr)
    ensures a in Addresses(ScannedWeakrefs(h, slots, path)) <==>
            exists d: nat, i: nat :: LiveAt(h, slots, path, d, i) && SlotAt(slots, path, d, i).ptr == a
  {
    var ix := AllIndices(slots, path);
    var ws := ScannedWeakrefs(h, slots, path);
    forall w
      ensures w in ws <==> exists d: nat, i: nat :: LiveAt(h, slots, path, d, i) && SlotAt(slots, path, d, i) == w
    {
      ScannedMember(h, slots, path, w);
    }
    hide ScannedWeakrefs;
    hide AllIndices;
    if exists d: nat, i: nat :: LiveAt(h, slots, path, d, i) && SlotAt(slots, path, d, i).ptr == a {
      var d: nat, i: nat :| LiveAt(h, slots, path, d, i) && SlotAt(slots, path, d, i).ptr == a;
      var w := SlotAt(slots, path, d, i);
      assert w in ws;
      var k :| 0 <= k < |ws| && ws[k] == w;
    }
    if a in Addresses(ws) {
      var k :| 0 <= k < |ws| && ws[k].ptr == a;
      assert ws[k] in ws;
    }
  }

  lemma ScannedMember(h: Heap, slots: Slots, path: seq<GraphId>, w: WeakRef)
    ensures w in ScannedWeakrefs(h, slots, path) <==>
            exists d: nat, i: nat :: LiveAt(h, slots, path, d, i) && SlotAt(slots, path, d, i) == w
  {
    var ix := AllIndices(slots, path);
    LiveAmongMember(h, slots, path, ix, |ix|, w);
    if exists d: nat, i: nat :: LiveAt(h, slots, path, d, i) && SlotAt(slots, path, d, i) == w {
      var d: nat, i: nat :| LiveAt(h, slots, path, d, i) && SlotAt(slots, path, d, i) == w;
      AllIndicesMember(slots, path, PathIndex(d, i));
      hide AllIndices;
      hide LiveAmong;
      var k :| 0 <= k < |ix| && ix[k] == PathIndex(d, i);
    }
    hide LiveAmong;
    hide AllIndices;
  }

  /** Some input that the function mutates is neither static nor an output of the path. */
  ghost predicate MutatesOutside(cfg: Config, s: State, c: Call) {
    exists i :: i in InfoOf(cfg, c.fn).mutated && i !in InfoOf(cfg, c.fn).statics && !(i < |c.inputs| && OnPath(s, c.inputs[i]))
  }

  lemma MutatesOutsideIff(cfg: Config, s: State, c: Call)
    ensures MutatesForeignInput(cfg, s, c.fn, c.inputs) <==> MutatesOutside(cfg, s, c)
  {
    forall t
      ensures RecognisedByCurrent(s, t) <==> OnPath(s, t)
    {
      RecognisedIff(s, t);
    }
    hide RecognisedByCurrent;
    hide OnPath;
    var info := InfoOf(cfg, c.fn);
    if MutatesOutside(cfg, s, c) {
      var i :| i in info.mutated && i !in info.statics && !(i < |c.inputs| && OnPath(s, c.inputs[i]));
      var k :| 0 <= k < |info.mutated| && info.mutated[k] == i;
    }
  }

  /** The first call of a function at a site runs eagerly, outside the pool, if it mutates an input
      that is neither static nor an output of the path. */
  lemma MutationRunsEagerly(cfg: Config, s: State, c: Call)
    requires HereFor(Settle(s), c.fn) !in Settle(s).hints && MutatesOutside(cfg, Settle(s), c)
    ensures RunCall(cfg, s, c).outcome == RanEagerly
  {
    MutatesOutsideIff(cfg, Settle(s), c);
    hide Settle;
    hide MutatesForeignInput;
    hide MutatesOutside;
    hide ExceedsLimit;
    hide Finish;
  }

  // ---------------------------------------------------------------- matching children

  /** Probing accepts the first child that passes if none before it raises. */
  lemma {:induction false} ProbeAccepts(cfg: Config, s: State, kids: seq<GraphId>, c: Call, k: nat, unexpected: bool, j: nat)
    requires k <= j < |kids| && (forall i :: 0 <= i < |kids| ==> kids[i] in s.recs)
    requires StatusOf(cfg, s, c, kids[j]) == Success
    requires forall i :: k <= i < j ==> StatusOf(cfg, s, c, kids[i]) !in {Success, Raised}
    ensures ProbeFrom(cfg, s, kids, c, k, unexpected) == Accept(kids[j])
    decreases j - k
  {
    hide CheckInvariants;
    if k < j {
      ProbeAccepts(cfg, s, kids, c, k + 1, unexpected || StatusOf(cfg, s, c, kids[k]) != DeadIndicesMismatch, j);
    }
  }

  /** A call that comes to its children replays the first one that passes: it is not recorded again. */
  lemma MatchIsReplayed(cfg: Config, s: State, c: Call, j: nat)
    requires var q := EnsureHint(cfg, Settle(s), c.fn, c.inputs);
             var kids := ChildrenAt(q.children, HereFor(q, c.fn));
             && Valid(q) && q.pathState in {NoPath, Executing}
             && !HintAt(q, HereFor(q, c.fn)) && !ExceedsLimit(cfg, q, HereFor(q, c.fn)) && !NeedsWarmup(cfg, q, c.fn)
             && j < |kids| && (forall i :: 0 <= i < |kids| ==> kids[i] in q.recs)
             && StatusOf(cfg, q, c, kids[j]) == Success
             && forall i :: 0 <= i < j ==> StatusOf(cfg, q, c, kids[i]) !in {Success, Raised}
    ensures var q := EnsureHint(cfg, Settle(s), c.fn, c.inputs);
            RunCall(cfg, s, c).outcome in
              {Replayed(ChildrenAt(q.children, HereFor(q, c.fn))[j]), Failed(StaticInputMoved), Failed(AliasedOutputGone)}
  {
    hide Settle;
    hide EnsureHint;
    hide CheckInvariants;
    hide NeedsWarmup;
    hide HintAt;
    hide ExceedsLimit;
    hide Finish;
    hide Valid;
    hide ReplayResult;
    var q := EnsureHint(cfg, Settle(s), c.fn, c.inputs);
    var kids, t := ChildrenAt(q.children, HereFor(q, c.fn)), TouchChildren(q, HereFor(q, c.fn));
    forall id | id in q.recs
      ensures StatusOf(cfg, t, c, id) == StatusOf(cfg, q, c, id)
    {
      StatusOfTouched(cfg, q, c, HereFor(q, c.fn), id);
    }
    ProbeAccepts(cfg, t, kids, c, 0, false, j);
    var trail := [s, Settle(s), q];
    ReplayOutcomes(cfg, t, kids[j], c, trail + [t]);
    AcceptReplays(cfg, q, c, trail, kids[j]);
    hide ProbeFrom;
    hide ProbeChildren;
  }

  lemma AcceptReplays(cfg: Config, q: State, c: Call, trail: seq<State>, child: GraphId)
    requires var t := TouchChildren(q, HereFor(q, c.fn));
             child in t.recs && ProbeFrom(cfg, t, ChildrenAt(q.children, HereFor(q, c.fn)), c, 0, false) == Accept(child)
    ensures var t := TouchChildren(q, HereFor(q, c.fn));
            ProbeChildren(cfg, q, c, trail) == ReplayResult(cfg, t, child, c, trail + [t])
  {
    hide ProbeFrom;
    hide ReplayResult;
  }

  lemma StatusOfTouched(cfg: Config, s: State, c: Call, k: Site, id: GraphId)
    requires id in s.recs
    ensures StatusOf(cfg, TouchChildren(s, k), c, id) == StatusOf(cfg, s, c, id)
  {
  }

  lemma ReplayOutcomes(cfg: Config, s: State, id: GraphId, c: Call, trail: seq<State>)
    requires id in s.recs
    ensures ReplayResult(cfg, s, id, c, trail).outcome in {Replayed(id), Failed(StaticInputMoved), Failed(AliasedOutputGone)}
  {
    hide StaticsStable;
    hide AliasedPriorsLive;
  }

  // ---------------------------------------------------------------- what a warmup tracks

  /** A warmup node tracks exactly the device tensors it returns that have an address and whose
      storage is no constant's and no input's from outside the path. */
  lemma WarmupTracksIff(s: State, inputs: seq<Input>, run: ModelRun, i: nat)
    requires Sound(s) && i < |run.outs|
    ensures var o, row := run.outs[i], WarmupRow(s, inputs, run);
            && (row[i].Some? <==>
                  && o.RawTensor? && o.ptr != 0 && o.storage !in run.constants
                  && !exists j :: 0 <= j < |inputs| && inputs[j].Tensor? && inputs[j].storage == o.storage &&
                       !LiveAddr(s.heap, s.slots, CurPath(s), inputs[j].base))
            && (row[i].Some? ==> row[i].value == WeakRef(o.storage, o.ptr, false))
  {
    WarmupPathShape(s);
    hide Sound;
    var live := ScannedWeakrefs(s.heap, s.slots, WarmupPath(s));
    forall a: Addr
      ensures a in Addresses(live) <==> LiveAddr(s.heap, s.slots, CurPath(s), a)
    {
      ScannedIff(s.heap, s.slots, WarmupPath(s), a);
      LongerPathLives(s, a);
    }
    hide ScannedWeakrefs;
    hide Addresses;
    hide LiveAddr;
  }

  lemma LongerPathLives(s: State, a: Addr)
    requires s.nextWarmup !in s.slots
    ensures (exists d: nat, i: nat :: LiveAt(s.heap, s.slots, WarmupPath(s), d, i) && SlotAt(s.slots, WarmupPath(s), d, i).ptr == a) <==>
            LiveAddr(s.heap, s.slots, CurPath(s), a)
  {
    var p, q := CurPath(s), WarmupPath(s);
    forall d: nat, i: nat
      ensures InPath(s.slots, q, d, i) <==> InPath(s.slots, p, d, i)
      ensures InPath(s.slots, p, d, i) ==> SlotAt(s.slots, q, d, i) == SlotAt(s.slots, p, d, i)
      ensures LiveAt(s.heap, s.slots, q, d, i) <==> LiveAt(s.heap, s.slots, p, d, i)
    {
      if d < |p| {
        assert q[d] == p[d];
      }
    }
    hide LiveAt;
  }

  /** What is recorded after probing mutates nothing outside the path. */
  lemma RecordsNoOutsideMutation(cfg: Config, s: State, c: Call, unexpected: bool, trail: seq<State>)
    requires AfterProbe(cfg, s, c, unexpected, trail).outcome.Recorded?
    ensures !MutatesOutside(cfg, s, c)
  {
    MutatesOutsideIff(cfg, s, c);
    hide MutatesOutside;
    hide TryEndExecution;
    hide ExceedsLimit;
    hide RecognisedByCurrent;
    var here := HereFor(s, c.fn);
    if |InfoOf(cfg, c.fn).mutated| > 0 {
      assert HintAt(UpdateHint(cfg, s, c.fn, c.inputs), here) <==> MutatesForeignInput(cfg, s, c.fn, c.inputs);
      hide MutatesForeignInput;
    }
  }
}
