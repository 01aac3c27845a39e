/**
 What one call changes: which tables grow and by what, when a recording is charged, and
 that nothing else moves before the path is dropped.
 */
module CallEffects {
  import opened Options
  import opened Storages
  import opened PathIndices
  import opened TreeState
  import opened PathOps
  import opened Checkpoints
  import opened Recordings
  import opened Replays
  import opened Acceptance
  import opened Warmups
  import opened Calls
  import opened CallProofs

  /** The two states agree on everything that only a recording, a warmup, a replay or the end
      of a call changes. */
  ghost predicate Same(s: State, t: State) {
    && t.recs == s.recs && t.unaliased == s.unaliased && t.nextGraph == s.nextGraph && t.warmedUp == s.warmedUp
    && t.markStep == s.markStep && t.generation == s.generation
    && t.currentGen == s.currentGen && t.pendingBackward == s.pendingBackward
    && forall k: Site :: ChildrenAt(t.children, k) == ChildrenAt(s.children, k)
  }

  lemma SameAll(s: State, t: State, u: State)
    requires Same(s, t) && Same(t, u)
    ensures Same(s, u)
  {
  }

  /** The pending-backward flag once a call of the function has returned. */
  function FlagAfter(cfg: Config, fn: FunctionId, pending: bool): bool {
    match InfoOf(cfg, fn).mode
    case Forward => true
    case Backward => false
    case Inference => pending
  }

  /** The node added by a recording: its record, its flags and those it lowers, its place among
      the children of its parent. */
  ghost predicate NodeAdded(cfg: Config, s: State, t: State, u: State, id: GraphId, c: Call) {
    && Same(s, u) && id == s.nextGraph && t.nextGraph == id + 1
    && t.recs == s.recs[id := NewRecord(u, c.fn, InfoOf(cfg, c.fn).statics, c.inputs, c.run)]
    && t.unaliased == MarkAliased(s.unaliased, CurPath(u), RecordedOuts(u, c.run))[id := OwnFlags(RecordedOuts(u, c.run))]
    && (forall k: Site :: ChildrenAt(t.children, k) ==
          if k == Site(u.current, c.fn) then ChildrenAt(s.children, k) + [id] else ChildrenAt(s.children, k))
  }

  ghost predicate NoNodeAdded(s: State, t: State) {
    && t.nextGraph == s.nextGraph && t.recs == s.recs && t.unaliased == s.unaliased
    && (forall k: Site :: ChildrenAt(t.children, k) == ChildrenAt(s.children, k))
  }

  /** From `s`, a call with outcome `o` that ran its function in `u` ends in `t`. */
  ghost predicate EndsAs(cfg: Config, s: State, o: Outcome, u: Option<State>, c: Call, t: State) {
    && t.markStep == s.markStep && t.generation == s.generation
    && t.warmedUp == (if o.WarmedUp? then s.warmedUp + {c.fn} else s.warmedUp)
    && t.currentGen == (if o.RanEagerly? || o.Failed? then s.currentGen else CurrGeneration(s))
    && t.pendingBackward in {s.pendingBackward, FlagAfter(cfg, c.fn, s.pendingBackward)}
    && (o.Failed? ==> t.pendingBackward == s.pendingBackward)
    && (if o.Recorded? then u.Some? && NodeAdded(cfg, s, t, u.value, o.id, c) else NoNodeAdded(s, t))
  }

  /** Wherever the path is dropped within the call, nothing has changed yet. */
  ghost predicate DropsFirst(s: State, trail: seq<State>) {
    forall k :: 0 <= k < |trail| - 1 && trail[k].current.Some? && trail[k + 1].current.None? ==> Same(s, trail[k])
  }

  ghost predicate AllSame(s: State, trail: seq<State>) {
    |trail| > 0 && forall k :: 0 <= k < |trail| ==> Same(s, trail[k])
  }

  ghost predicate Effects(cfg: Config, s: State, r: CallResult, c: Call) {
    && |r.trail| > 0 && EndsAs(cfg, s, r.outcome, r.ranIn, c, Last(r.trail)) && DropsFirst(s, r.trail)
  }

  lemma SameGrows(s: State, trail: seq<State>, t: State)
    requires AllSame(s, trail) && Same(s, t)
    ensures AllSame(s, trail + [t])
  {
    hide Same;
  }

  lemma DropsFirstGrows(s: State, trail: seq<State>, t: State)
    requires AllSame(s, trail)
    ensures DropsFirst(s, trail + [t])
  {
    hide Same;
  }

  // ---------------------------------------------------------------- steps that change none of it

  lemma SettleSame(s: State)
    ensures Same(s, Settle(s))
  {
    hide AllOutputsAreDead;
    hide DeallocPath;
    hide CanStartNewGeneration;
    hide ChildrenAt;
    EndSame(s);
    EndSame(DeallocPath(s));
    var d := DeallocPath(s);
    assert d == s.(pool := d.pool);
    assert Same(s, d);
    SameAll(s, d, EndPath(d));
    hide EndPath;
    hide Same;
    SameSelf(s);
  }

  lemma EndSame(s: State)
    ensures Same(s, EndPath(s))
  {
  }

  lemma HintSame(cfg: Config, s: State, fn: FunctionId, inputs: seq<Input>)
    ensures Same(s, UpdateHint(cfg, s, fn, inputs)) && Same(s, EnsureHint(cfg, s, fn, inputs))
  {
    hide MutatesForeignInput;
  }

  lemma EndExecutionSame(s: State)
    ensures Same(s, TryEndExecution(s))
  {
    hide AllOutputsAreDead;
  }

  lemma TouchSame(s: State, k: Site)
    ensures Same(s, TouchChildren(s, k))
  {
  }

  lemma ChargeSame(s: State, k: Site)
    ensures Same(s, Charge(s, k))
  {
  }

  lemma CheckpointSame(s: State)
    ensures Same(s, if s.pathState == Executing then Checkpoint(s) else s)
  {
    hide PathLiveWeakrefs;
    hide DeadAddresses;
  }

  lemma ReleaseSame(s: State, id: GraphId, c: Call)
    requires id in s.recs
    ensures Same(s, ReleaseInputs(s, id, c))
  {
  }

  lemma UserSame(s: State, h: Heap, n: StorageId)
    ensures Same(s, UserStep(s, h, n))
  {
  }

  // ---------------------------------------------------------------- outcomes

  lemma EagerEffects(cfg: Config, s: State, q: State, c: Call, trail: seq<State>)
    requires AllSame(s, trail) && Same(s, q)
    ensures Effects(cfg, s, EagerResult(q, c, trail), c)
  {
    UserSame(q, HeapAfter(q, c.run), c.run.nextStorage);
    var t := UserStep(q, HeapAfter(q, c.run), c.run.nextStorage);
    SameAll(s, q, t);
    DropsFirstGrows(s, trail, t);
    hide UserStep;
    hide DropsFirst;
  }

  lemma WarmupEffects(cfg: Config, s: State, q: State, c: Call, trail: seq<State>)
    requires AllSame(s, trail) && Same(s, q)
    ensures Effects(cfg, s, WarmupResult(q, c, trail), c)
  {
    CheckpointSame(q);
    var u := if q.pathState == Executing then Checkpoint(q) else q;
    SameAll(s, q, u);
    DropsFirstGrows(s, trail, WarmUp(u, c.fn, c.inputs, c.run));
    hide Checkpoint;
    hide DropsFirst;
    hide WarmupRow;
    hide AllocateRow;
    hide FreeDead;
  }

  lemma RecordEffects(cfg: Config, s: State, q: State, c: Call, charge: Option<Site>, trail: seq<State>)
    requires AllSame(s, trail) && Same(s, q)
    ensures Effects(cfg, s, RecordResult(cfg, q, c, charge, trail), c)
  {
    CheckpointSame(q);
    var u := if q.pathState == Executing then Checkpoint(q) else q;
    SameAll(s, q, u);
    RecordAdds(cfg, s, u, c);
    DropsFirstGrows(s, trail, Record(u, c.fn, InfoOf(cfg, c.fn).statics, c.inputs, c.run));
    hide Checkpoint;
    hide Record;
    hide DropsFirst;
    hide NodeAdded;
    hide Same;
  }

  lemma RecordAdds(cfg: Config, s: State, u: State, c: Call)
    requires Same(s, u)
    ensures var t := Record(u, c.fn, InfoOf(cfg, c.fn).statics, c.inputs, c.run);
            && NodeAdded(cfg, s, t, u, u.nextGraph, c)
            && t.markStep == s.markStep && t.generation == s.generation && t.warmedUp == s.warmedUp
            && t.currentGen == CurrGeneration(s) && t.pendingBackward == s.pendingBackward
  {
    hide NewRecord;
    hide RecordedOuts;
    hide RecordedSlots;
    hide RecordedPool;
    hide MarkAliased;
    hide OwnFlags;
    hide CurPath;
  }

  lemma ReplayEffects(cfg: Config, s: State, q: State, id: GraphId, c: Call, trail: seq<State>)
    requires AllSame(s, trail) && Same(s, q) && id in q.recs
    ensures Effects(cfg, s, ReplayResult(cfg, q, id, c, trail), c)
  {
    hide StaticsStable;
    hide AliasedPriorsLive;
    hide RebuildHeap;
    hide ClearAt;
    hide RebuiltRow;
    hide InitialCache;
    hide RowStorages;
    hide CachePlaces;
    var r := ReplayResult(cfg, q, id, c, trail);
    if r.outcome.Replayed? {
      DropsFirstGrows(s, trail, Replay(q, id, c.rest));
    }
  }

  // ---------------------------------------------------------------- whole calls

  lemma AfterProbeEffects(cfg: Config, s: State, q: State, c: Call, unexpected: bool, trail: seq<State>)
    requires AllSame(s, trail) && Same(s, q)
    ensures Effects(cfg, s, AfterProbe(cfg, q, c, unexpected, trail), c)
  {
    hide Same;
    hide AllSame;
    hide Effects;
    hide UpdateHint;
    hide HintAt;
    hide Charge;
    hide TryEndExecution;
    hide ExceedsLimit;
    hide EagerResult;
    hide RecordResult;
    var here := HereFor(q, c.fn);
    var s1 := if |InfoOf(cfg, c.fn).mutated| > 0 then UpdateHint(cfg, q, c.fn, c.inputs) else q;
    HintSame(cfg, q, c.fn, c.inputs);
    SameAll(s, q, if |InfoOf(cfg, c.fn).mutated| > 0 then s1 else q) by { SameSelf(q); }
    SameGrows(s, trail, s1);
    if |InfoOf(cfg, c.fn).mutated| > 0 && HintAt(s1, here) {
      EagerEffects(cfg, s, s1, c, trail + [s1]);
    } else {
      var s2 := if unexpected then Charge(s1, here) else s1;
      ChargeSame(s1, here);
      SameAll(s, s1, if unexpected then s2 else s1) by { SameSelf(s1); }
      SameGrows(s, trail + [s1], s2);
      assert trail + [s1] + [s2] == trail + [s1, s2];
      if unexpected && ExceedsLimit(cfg, s2, here) {
        EagerEffects(cfg, s, s2, c, trail + [s1, s2]);
      } else {
        var s3 := TryEndExecution(s2);
        EndExecutionSame(s2);
        SameAll(s, s2, s3);
        SameGrows(s, trail + [s1, s2], s3);
        assert trail + [s1, s2] + [s3] == trail + [s1, s2, s3];
        RecordEffects(cfg, s, s3, c, if unexpected then Some(here) else None, trail + [s1, s2, s3]);
      }
    }
  }

  lemma SameSelf(s: State)
    ensures Same(s, s)
  {
  }

  lemma ProbeChildrenEffects(cfg: Config, s: State, q: State, c: Call, trail: seq<State>)
    requires AllSame(s, trail) && Same(s, q)
    ensures Effects(cfg, s, ProbeChildren(cfg, q, c, trail), c)
    decreases Rank(q), 1
  {
    hide Same;
    hide AllSame;
    hide Effects;
    hide ProbeFrom;
    hide ReplayResult;
    hide ReleaseInputs;
    hide TryEndExecution;
    hide AfterProbe;
    hide RunCall;
    hide ChildrenAt;
    var here := HereFor(q, c.fn);
    var s1 := TouchChildren(q, here);
    TouchSame(q, here);
    SameAll(s, q, s1);
    SameGrows(s, trail, s1);
    match ProbeFrom(cfg, s1, ChildrenAt(q.children, here), c, 0, false)
    case Accept(child) =>
      if child in s1.recs {
        ReplayEffects(cfg, s, s1, child, c, trail + [s1]);
      } else {
        FailedEffects(cfg, s, c, trail, AliasedOutputGone);
      }
    case Raise(child) =>
      if child in s1.recs {
        var t := ReleaseInputs(s1, child, c);
        ReleaseSame(s1, child, c);
        SameAll(s, s1, t);
        SameGrows(s, trail + [s1], t);
        assert trail + [s1] + [t] == trail + [s1, t];
        FailedEffects(cfg, s, c, trail + [s1, t], SurvivingInput);
      } else {
        FailedEffects(cfg, s, c, trail, AliasedOutputGone);
      }
    case NoMatch(unexpected) =>
      NoMatchEffects(cfg, s, q, c, trail, unexpected);
  }

  lemma FailedEffects(cfg: Config, s: State, c: Call, trail: seq<State>, why: Failure)
    requires AllSame(s, trail)
    ensures Effects(cfg, s, CallResult(Failed(why), trail, None), c)
  {
    assert Same(s, Last(trail));
  }

  lemma NoMatchEffects(cfg: Config, s: State, q: State, c: Call, trail: seq<State>, unexpected: bool)
    requires AllSame(s, trail) && Same(s, q)
    requires ProbeFrom(cfg, TouchChildren(q, HereFor(q, c.fn)), ChildrenAt(q.children, HereFor(q, c.fn)), c, 0, false) == NoMatch(unexpected)
    ensures Effects(cfg, s, ProbeChildren(cfg, q, c, trail), c)
    decreases Rank(q), 0
  {
    hide Same;
    hide AllSame;
    hide Effects;
    hide ProbeFrom;
    hide ReplayResult;
    hide ReleaseInputs;
    hide TryEndExecution;
    hide AfterProbe;
    hide RunCall;
    hide ChildrenAt;
    var s1 := TouchChildren(q, HereFor(q, c.fn));
    TouchSame(q, HereFor(q, c.fn));
    SameAll(s, q, s1);
    SameGrows(s, trail, s1);
    if s1.current.Some? && Site(None, c.fn) in s1.children {
      var s2 := TryEndExecution(s1);
      EndExecutionSame(s1);
      SameAll(s, s1, s2);
      if s2.current.None? {
        RunCallEffects(cfg, s2, c);
        EffectsCarry(cfg, s, s2, c, trail + [s1], RunCall(cfg, s2, c));
      } else {
        SameGrows(s, trail + [s1], s2);
        assert trail + [s1] + [s2] == trail + [s1, s2];
        AfterProbeEffects(cfg, s, s2, c, unexpected, trail + [s1, s2]);
      }
    } else {
      AfterProbeEffects(cfg, s, s1, c, unexpected, trail + [s1]);
    }
  }

  /** A call made from within changes from `s` what it changes from the state it was made in. */
  lemma EffectsCarry(cfg: Config, s: State, s2: State, c: Call, trail: seq<State>, r: CallResult)
    requires AllSame(s, trail) && Same(s, s2) && Effects(cfg, s2, r, c)
    ensures Effects(cfg, s, r.(trail := trail + r.trail), c)
  {
    EndsAsCarries(cfg, s, s2, r.outcome, r.ranIn, c, Last(r.trail));
    hide EndsAs;
    var all := trail + r.trail;
    assert Last(all) == Last(r.trail);
    forall k | 0 <= k < |all| - 1 && all[k].current.Some? && all[k + 1].current.None?
      ensures Same(s, all[k])
    {
      if k >= |trail| {
        assert r.trail[k - |trail|] == all[k] && r.trail[k - |trail| + 1] == all[k + 1];
        SameAll(s, s2, all[k]);
      }
    }
  }

  lemma EndsAsCarries(cfg: Config, s: State, s2: State, o: Outcome, u: Option<State>, c: Call, t: State)
    requires Same(s, s2) && EndsAs(cfg, s2, o, u, c, t)
    ensures EndsAs(cfg, s, o, u, c, t)
  {
    hide NewRecord;
    hide MarkAliased;
    hide OwnFlags;
    hide RecordedOuts;
    hide CurPath;
    if o.Recorded? {
      SameAll(s, s2, u.value);
    }
  }

  lemma RunBodyEffects(cfg: Config, s: State, c: Call)
    ensures Effects(cfg, s, RunBody(cfg, s, c), c)
    decreases Rank(s), 2
  {
    hide Same;
    hide Effects;
    hide Settle;
    hide EnsureHint;
    hide HintAt;
    hide ExceedsLimit;
    hide NeedsWarmup;
    hide EagerResult;
    hide WarmupResult;
    hide RecordResult;
    hide ProbeChildren;
    var s1 := Settle(s);
    var s2 := EnsureHint(cfg, s1, c.fn, c.inputs);
    var trail := [s, s1, s2];
    SettleSame(s);
    HintSame(cfg, s1, c.fn, c.inputs);
    SameSelf(s);
    SameAll(s, s1, s2);
    assert AllSame(s, trail);
    hide AllSame;
    EagerEffects(cfg, s, s2, c, trail);
    WarmupEffects(cfg, s, s2, c, trail);
    RecordEffects(cfg, s, s2, c, None, trail);
    ProbeChildrenEffects(cfg, s, s2, c, trail);
  }

  /** One call: the tables grow as its outcome says, the generation is noted when the path is
      extended, and nothing has changed yet when the path is dropped. */
  lemma RunCallEffects(cfg: Config, s: State, c: Call)
    ensures Effects(cfg, s, RunCall(cfg, s, c), c)
    ensures !RunCall(cfg, s, c).outcome.Failed? ==>
              Last(RunCall(cfg, s, c).trail).pendingBackward == FlagAfter(cfg, c.fn, s.pendingBackward)
    decreases Rank(s), 3
  {
    hide RunBody;
    RunBodyEffects(cfg, s, c);
    var r := RunBody(cfg, s, c);
    if !r.outcome.Failed? {
      FinishEffects(cfg, s, r, c);
    }
  }

  lemma FinishEffects(cfg: Config, s: State, r: CallResult, c: Call)
    requires Effects(cfg, s, r, c) && !r.outcome.Failed?
    ensures var t := Finish(cfg, Last(r.trail), c.fn);
            Effects(cfg, s, r.(trail := r.trail + [t]), c) && t.pendingBackward == FlagAfter(cfg, c.fn, s.pendingBackward)
  {
    var last := Last(r.trail);
    var t := Finish(cfg, last, c.fn);
    var all := r.trail + [t];
    hide Same;
    hide NodeAdded;
    assert t == last.(pendingBackward := FlagAfter(cfg, c.fn, last.pendingBackward));
    NodeAddedFrame(cfg, s, last, r.ranIn, r.outcome, c, t);
    forall k | 0 <= k < |all| - 1 && all[k].current.Some? && all[k + 1].current.None?
      ensures Same(s, all[k])
    {
      assert k < |r.trail| - 1;
    }
  }

  lemma NodeAddedFrame(cfg: Config, s: State, last: State, u: Option<State>, o: Outcome, c: Call, t: State)
    requires t == last.(pendingBackward := t.pendingBackward)
    requires o.Recorded? ==> u.Some? && NodeAdded(cfg, s, last, u.value, o.id, c)
    ensures o.Recorded? ==> u.Some? && NodeAdded(cfg, s, t, u.value, o.id, c)
  {
    hide Same;
    hide NewRecord;
    hide MarkAliased;
    hide OwnFlags;
    hide RecordedOuts;
  }
}
