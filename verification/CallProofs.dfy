/**
 Every call keeps the invariant, and moves the current path only in the ways the
 state machine allows.
 */
module CallProofs {
  import opened Options
  import opened Storages
  import opened PathIndices
  import opened TreeState
  import opened PathOps
  import opened Checkpoints
  import opened Recordings
  import opened RecordingProofs
  import opened Replays
  import opened ReplayProofs
  import opened Warmups
  import opened Calls

  /** The argument list holds the references it is said to hold. */
  ghost predicate CallOk(s: State, c: Call) {
    s.heap == HeapWith(c.rest, c.inputs)
  }

  /** What is taken for granted of the function's own run, by how it was run. */
  ghost predicate RunOk(r: CallResult, c: Call) {
    match r.outcome
    case RanEagerly => r.ranIn.Some? &&
      Follows(HeapAfter(r.ranIn.value, c.run), r.ranIn.value.heap, r.ranIn.value.nextStorage, c.run.nextStorage)
    case WarmedUp(_) => r.ranIn.Some? && WarmupRun(r.ranIn.value, c.inputs, c.run)
    case Recorded(_, _) => r.ranIn.Some? && RecordingRun(r.ranIn.value, c.run)
    case Replayed(_) => true
    case Failed(_) => true
  }

  // ---------------------------------------------------------------- legal steps

  predicate PathKept(s: State, t: State) {
    s.current == t.current && s.pathState == t.pathState && CurPath(s) == CurPath(t)
  }

  /** One node is added. Only an empty or a replayed path is replayed further, a path
      with a warmup node is only warmed up further, and no path is recorded behind one. */
  ghost predicate PathExtended(s: State, t: State) {
    && t.current.Some? && CurPath(t) == CurPath(s) + [t.current.value]
    && t.pathState != NoPath
    && (t.pathState == Executing ==> s.pathState in {NoPath, Executing})
    && (s.pathState == WarmingUp ==> t.pathState == WarmingUp)
  }

  /** The path is dropped: nothing on it is live, or its generation is over and either the
      user marked a step or no forward waits for its backward. */
  ghost predicate PathAbandoned(s: State, t: State) {
    && s.current.Some? && t.current.None? && t.pathState == NoPath
    && (|| NoneLive(s.heap, s.slots, CurPath(s))
        || (s.currentGen != CurrGeneration(s) && (s.markStep != 0 || !s.pendingBackward)))
  }

  ghost predicate LegalStep(s: State, t: State) {
    PathKept(s, t) || PathExtended(s, t) || PathAbandoned(s, t)
  }

  ghost predicate TrailOk(trail: seq<State>) {
    && |trail| > 0
    && (forall k :: 0 <= k < |trail| ==> Valid(trail[k]))
    && (forall k :: 0 <= k < |trail| - 1 ==> LegalStep(trail[k], trail[k + 1]))
  }

  function Last(trail: seq<State>): State
    requires |trail| > 0
  {
    trail[|trail| - 1]
  }

  /** The call left the manager in this state. */
  ghost predicate EndsIn(r: CallResult, s: State) {
    |r.trail| > 0 && Last(r.trail) == s
  }

  lemma TrailGrows(trail: seq<State>, t: State)
    requires TrailOk(trail) && Valid(t) && LegalStep(Last(trail), t)
    ensures TrailOk(trail + [t]) && Last(trail + [t]) == t
  {
    hide Valid;
    hide LegalStep;
    var longer := trail + [t];
    forall k | 0 <= k < |longer| - 1
      ensures LegalStep(longer[k], longer[k + 1])
    {
      if k < |trail| - 1 {
        assert LegalStep(trail[k], trail[k + 1]);
      }
    }
  }

  lemma TrailsJoin(first: seq<State>, second: seq<State>)
    requires TrailOk(first) && TrailOk(second) && LegalStep(Last(first), second[0])
    ensures TrailOk(first + second) && Last(first + second) == Last(second)
  {
    hide Valid;
    hide LegalStep;
    var both := first + second;
    forall k | 0 <= k < |both| - 1
      ensures LegalStep(both[k], both[k + 1])
    {
      if k < |first| - 1 {
        assert LegalStep(first[k], first[k + 1]);
      } else if k >= |first| {
        assert LegalStep(second[k - |first|], second[k - |first| + 1]);
      }
    }
  }

  // ---------------------------------------------------------------- single steps

  lemma StateNamesNode(s: State)
    requires Sound(s)
    ensures s.current.None? <==> s.pathState == NoPath
  {
  }

  lemma AbandonDead(s: State)
    requires Sound(s) && s.current.Some? && AllOutputsAreDead(s)
    ensures PathAbandoned(s, EndPath(s))
  {
    hide Sound;
    FastLivenessIsExact(s);
  }

  lemma AbandonGeneration(s: State, t: State)
    requires s.current.Some? && CanStartNewGeneration(s) && t.current.None? && t.pathState == NoPath
    ensures PathAbandoned(s, t)
  {
  }

  lemma TryEndAllocatingStep(s: State)
    requires Valid(s) && s.pathState in {Recording, WarmingUp}
    ensures Valid(TryEndAllocating(s)) && LegalStep(s, TryEndAllocating(s))
  {
    StateNamesNode(s);
    hide Sound;
    hide PoolOk;
    hide DeallocPath;
    hide AllOutputsAreDead;
    hide PathAbandoned;
    if CanStartNewGeneration(s) {
      EndFreedPath(s);
      AbandonGeneration(s, EndPath(DeallocPath(s)));
    } else if AllOutputsAreDead(s) {
      EndDeadPath(s);
      AbandonDead(s);
    }
  }

  lemma SettleStep(s: State)
    requires Valid(s)
    ensures Valid(Settle(s)) && LegalStep(s, Settle(s))
  {
    hide Valid;
    hide TryEndAllocating;
    if s.pathState in {Recording, WarmingUp} {
      TryEndAllocatingStep(s);
    } else {
      assert PathKept(s, s);
    }
  }

  lemma TryEndExecutionStep(s: State)
    requires Valid(s) && s.pathState in {NoPath, Executing}
    ensures Valid(TryEndExecution(s)) && LegalStep(s, TryEndExecution(s)) && TryEndExecution(s).heap == s.heap
    ensures TryEndExecution(s).pathState in {NoPath, Executing}
    ensures TryEndExecution(s).current.None? ==> TryEndExecution(s).pathState == NoPath
  {
    hide Sound;
    hide PoolOk;
    hide AllOutputsAreDead;
    hide NoneLive;
    StateNamesNode(s);
    if s.current.Some? {
      EndExecutedPath(s);
      FastLivenessIsExact(s);
    }
  }

  lemma BookkeepingStep(s: State, t: State)
    requires Valid(s) && SameTables(s, t) && s.current == t.current && s.pathState == t.pathState && s.pool == t.pool
    ensures Valid(t) && LegalStep(s, t)
  {
    ValidFrame(s, t);
  }

  lemma TouchChildrenStep(s: State, k: Site)
    requires Valid(s)
    ensures Valid(TouchChildren(s, k)) && LegalStep(s, TouchChildren(s, k))
  {
    var t := TouchChildren(s, k);
    hide RecordsOk;
    hide AllTracked;
    hide ExtraPlaced;
    hide StoragesBelow;
    hide FlagsIn;
    hide ChildrenIn;
    hide NodesOk;
    hide IdsOk;
    hide CurrentOk;
    hide PathLiveOk;
    hide PathUncached;
    hide PoolExact;
    TouchedNodes(s, k);
    TouchedChildren(s.recs, s.children, k);
    TouchedPath(s, k);
    assert PathKept(s, t);
  }

  lemma TouchedChildren(recs: map<GraphId, GraphRecord>, children: map<Site, seq<GraphId>>, k: Site)
    requires ChildrenIn(recs, children)
    ensures ChildrenIn(recs, children[k := ChildrenAt(children, k)])
  {
    var after := children[k := ChildrenAt(children, k)];
    assert forall q, j: nat :: q in after && j < |after[q]| ==> q in children && after[q][j] == children[q][j];
  }

  lemma TouchedPath(s: State, k: Site)
    requires IdsOk(s) && CurrentOk(s) && PathLiveOk(s)
    ensures var t := TouchChildren(s, k);
            IdsOk(t) && CurrentOk(t) && PathLiveOk(t) && CurPath(t) == CurPath(s) && (PathUncached(s) ==> PathUncached(t))
  {
    var t := TouchChildren(s, k);
    assert forall id :: PathOf(t, id) == PathOf(s, id);
    assert CurPath(t) == CurPath(s);
    hide LiveWithin;
    hide SameStorage;
  }

  lemma TouchedNodes(s: State, k: Site)
    requires NodesOk(s)
    ensures NodesOk(TouchChildren(s, k))
  {
    forall id | id in s.recs
      ensures NodeOk(TouchChildren(s, k), id)
    {
      assert NodeOk(s, id);
    }
  }

  lemma EagerStep(s: State, c: Call)
    requires Valid(s) && Follows(HeapAfter(s, c.run), s.heap, s.nextStorage, c.run.nextStorage)
    ensures var t := UserStep(s, HeapAfter(s, c.run), c.run.nextStorage); Valid(t) && LegalStep(s, t)
  {
    UserStepValid(s, HeapAfter(s, c.run), c.run.nextStorage);
  }

  /** The allocator reflects the path before anything runs in the pool. */
  lemma ReadyToAllocate(s: State)
    requires Valid(s)
    ensures var t := if s.pathState == Executing then Checkpoint(s) else s;
            Sound(t) && Ready(t) && CurPath(t) == CurPath(s) && t.pathState == s.pathState
  {
    if s.pathState == Executing {
      CheckpointReady(s);
    }
  }

  lemma WarmupStep(s: State, c: Call, trail: seq<State>)
    requires TrailOk(trail) && Last(trail) == s && RunOk(WarmupResult(s, c, trail), c)
    ensures Continues(trail, WarmupResult(s, c, trail).trail)
  {
    var t := if s.pathState == Executing then Checkpoint(s) else s;
    assert Valid(s);
    ReadyToAllocate(s);
    WarmupValid(t, c.fn, c.inputs, c.run);
    TrailGrows(trail, WarmUp(t, c.fn, c.inputs, c.run));
  }

  lemma RecordStep(cfg: Config, s: State, c: Call, charge: Option<Site>, trail: seq<State>)
    requires TrailOk(trail) && Last(trail) == s && s.pathState != WarmingUp && RunOk(RecordResult(cfg, s, c, charge, trail), c)
    ensures Continues(trail, RecordResult(cfg, s, c, charge, trail).trail)
  {
    var t := if s.pathState == Executing then Checkpoint(s) else s;
    assert Valid(s);
    ReadyToAllocate(s);
    RecordValid(t, c.fn, InfoOf(cfg, c.fn).statics, c.inputs, c.run);
    TrailGrows(trail, Record(t, c.fn, InfoOf(cfg, c.fn).statics, c.inputs, c.run));
  }

  // ---------------------------------------------------------------- probing

  /** How child `id` fares. */
  function StatusOf(cfg: Config, s: State, c: Call, id: GraphId): CheckStatus
    requires id in s.recs
  {
    CheckInvariants(RerecordsOnMovedStatics(cfg), s, s.recs[id], c.rest, c.inputs)
  }

  /** Probing from position `k` stops at position `j` because the child there passed or raised. */
  ghost predicate StopsAt(cfg: Config, s: State, kids: seq<GraphId>, c: Call, k: nat, j: nat, status: CheckStatus)
    requires forall i :: 0 <= i < |kids| ==> kids[i] in s.recs
  {
    && k <= j < |kids| && StatusOf(cfg, s, c, kids[j]) == status
    && forall i :: k <= i < j ==> StatusOf(cfg, s, c, kids[i]) !in {Success, Raised}
  }

  /** Probing stops at the first child, in recording order, that passes (or raises). */
  lemma {:induction false} FirstMatchWins(cfg: Config, s: State, kids: seq<GraphId>, c: Call, k: nat, unexpected: bool)
      returns (j: nat)
    requires k <= |kids| && forall i :: 0 <= i < |kids| ==> kids[i] in s.recs
    ensures match ProbeFrom(cfg, s, kids, c, k, unexpected)
            case Accept(child) => StopsAt(cfg, s, kids, c, k, j, Success) && kids[j] == child
            case Raise(child) => StopsAt(cfg, s, kids, c, k, j, Raised) && kids[j] == child
            case NoMatch(_) => j == |kids| && forall i :: k <= i < j ==> StatusOf(cfg, s, c, kids[i]) !in {Success, Raised}
    decreases |kids| - k
  {
    hide CheckInvariants;
    j := k;
    if k < |kids| && StatusOf(cfg, s, c, kids[k]) !in {Success, Raised} {
      var charged := StatusOf(cfg, s, c, kids[k]) != DeadIndicesMismatch;
      j := FirstMatchWins(cfg, s, kids, c, k + 1, unexpected || charged);
    }
  }

  lemma KidsAreRecorded(s: State, here: Site, j: nat)
    requires ChildrenOk(s) && here.node == s.current && j < |ChildrenAt(s.children, here)|
    ensures var child := ChildrenAt(s.children, here)[j];
            child in s.recs && s.recs[child].path == CurPath(s) + [child]
  {
    var child := s.children[here][j];
    assert s.current.None? ==> CurPath(s) + [child] == [child];
  }

  lemma ReplayStep(cfg: Config, s: State, child: GraphId, c: Call, trail: seq<State>)
    requires TrailOk(trail) && |trail| > 0 && Last(trail) == s && CanProbe(s, child, c.rest, c.inputs) && Accepted(s, child, c.rest, c.inputs)
    ensures Continues(trail, ReplayResult(cfg, s, child, c, trail).trail)
  {
    hide Valid;
    hide TrailOk;
    hide Accepted;
    hide AliasedPriorsLive;
    hide StaticsStable;
    var r := ReplayResult(cfg, s, child, c, trail);
    if r.outcome.Replayed? {
      ReplayValid(s, child, c.rest, c.inputs);
      assert PathExtended(s, Replay(s, child, c.rest));
      TrailGrows(trail, Replay(s, child, c.rest));
    }
  }

  // ---------------------------------------------------------------- whole calls

  /** `longer` is `trail` and then some. */
  ghost predicate Continues(trail: seq<State>, longer: seq<State>) {
    TrailOk(longer) && trail <= longer
  }

  lemma EagerTrail(s: State, c: Call, trail: seq<State>)
    requires TrailOk(trail) && Last(trail) == s && RunOk(EagerResult(s, c, trail), c)
    ensures Continues(trail, EagerResult(s, c, trail).trail)
  {
    hide Valid;
    hide LegalStep;
    assert Valid(s);
    EagerStep(s, c);
    TrailGrows(trail, UserStep(s, HeapAfter(s, c.run), c.run.nextStorage));
  }

  lemma BookkeepingTrail(trail: seq<State>, s: State, t: State)
    requires TrailOk(trail) && |trail| > 0 && Last(trail) == s
    requires SameTables(s, t) && s.current == t.current && s.pathState == t.pathState && s.pool == t.pool
    ensures Continues(trail, trail + [t])
  {
    hide Valid;
    hide LegalStep;
    assert Valid(s);
    BookkeepingStep(s, t);
    TrailGrows(trail, t);
  }

  lemma AfterProbeTrail(cfg: Config, s: State, c: Call, unexpected: bool, trail: seq<State>)
    requires TrailOk(trail) && |trail| > 0 && Last(trail) == s && s.pathState in {NoPath, Executing}
    requires RunOk(AfterProbe(cfg, s, c, unexpected, trail), c)
    ensures Continues(trail, AfterProbe(cfg, s, c, unexpected, trail).trail)
  {
    hide TrailOk;
    hide RunOk;
    hide MutatesForeignInput;
    hide TryEndExecution;
    hide ExceedsLimit;
    hide EagerResult;
    hide RecordResult;
    var here := HereFor(s, c.fn);
    var s1 := if |InfoOf(cfg, c.fn).mutated| > 0 then UpdateHint(cfg, s, c.fn, c.inputs) else s;
    var tr1 := trail + [s1];
    BookkeepingTrail(trail, s, s1);
    if |InfoOf(cfg, c.fn).mutated| > 0 && HintAt(s1, here) {
      EagerTrail(s1, c, tr1);
    } else {
      var s2 := if unexpected then Charge(s1, here) else s1;
      var tr2 := trail + [s1, s2];
      assert tr2 == tr1 + [s2];
      BookkeepingTrail(tr1, s1, s2);
      if unexpected && ExceedsLimit(cfg, s2, here) {
        EagerTrail(s2, c, tr2);
      } else {
        assert trail + [s1, s2, TryEndExecution(s2)] == tr2 + [TryEndExecution(s2)];
        AfterProbeRecords(cfg, s2, c, if unexpected then Some(here) else None, tr2);
      }
    }
  }

  lemma AfterProbeRecords(cfg: Config, s: State, c: Call, charge: Option<Site>, trail: seq<State>)
    requires TrailOk(trail) && Last(trail) == s && s.pathState in {NoPath, Executing}
    requires RunOk(RecordResult(cfg, TryEndExecution(s), c, charge, trail + [TryEndExecution(s)]), c)
    ensures Continues(trail, RecordResult(cfg, TryEndExecution(s), c, charge, trail + [TryEndExecution(s)]).trail)
  {
    hide Valid;
    hide LegalStep;
    hide RunOk;
    assert Valid(s);
    TryEndExecutionStep(s);
    var t := TryEndExecution(s);
    TrailGrows(trail, t);
    RecordStep(cfg, t, c, charge, trail + [t]);
  }

  lemma AcceptedChild(cfg: Config, s: State, c: Call, child: GraphId)
    requires Valid(s) && s.pathState in {NoPath, Executing} && CallOk(s, c)
    requires ProbeFrom(cfg, s, ChildrenAt(s.children, HereFor(s, c.fn)), c, 0, false) == Accept(child)
    ensures child in s.recs && CanProbe(s, child, c.rest, c.inputs) && Accepted(s, child, c.rest, c.inputs)
    ensures StatusOf(cfg, s, c, child) == Success
  {
    var here := HereFor(s, c.fn);
    var kids := ChildrenAt(s.children, here);
    forall j | 0 <= j < |kids|
      ensures kids[j] in s.recs && s.recs[kids[j]].path == CurPath(s) + [kids[j]]
    {
      KidsAreRecorded(s, here, j);
    }
    var j := FirstMatchWins(cfg, s, kids, c, 0, false);
    SuccessIsAccepted(RerecordsOnMovedStatics(cfg), s, child, c.rest, c.inputs);
  }

  lemma RaisedChild(cfg: Config, s: State, c: Call, child: GraphId)
    requires Valid(s)
    requires ProbeFrom(cfg, s, ChildrenAt(s.children, HereFor(s, c.fn)), c, 0, false) == Raise(child)
    ensures child in s.recs
  {
    var here := HereFor(s, c.fn);
    var kids := ChildrenAt(s.children, here);
    forall j | 0 <= j < |kids|
      ensures kids[j] in s.recs
    {
      KidsAreRecorded(s, here, j);
    }
    var j := FirstMatchWins(cfg, s, kids, c, 0, false);
  }

  /** Clearing inputs only drops references. */
  lemma ReleaseStep(s: State, id: GraphId, c: Call)
    requires Valid(s) && id in s.recs && CallOk(s, c)
    ensures Valid(ReleaseInputs(s, id, c)) && LegalStep(s, ReleaseInputs(s, id, c))
  {
    hide Valid;
    var fewer := ClearAt(c.inputs, s.recs[id].managed);
    ClearedHeapFollows(c.rest, c.inputs, fewer, s.nextStorage);
    UserStepValid(s, HeapWith(c.rest, fewer), s.nextStorage);
    assert PathKept(s, ReleaseInputs(s, id, c));
  }

  lemma ProbeChildrenTrail(cfg: Config, s: State, c: Call, trail: seq<State>)
    requires TrailOk(trail) && Last(trail) == s && s.pathState in {NoPath, Executing} && CallOk(s, c)
    requires RunOk(ProbeChildren(cfg, s, c, trail), c)
    ensures Continues(trail, ProbeChildren(cfg, s, c, trail).trail)
    decreases Rank(s), 0
  {
    hide Valid;
    hide LegalStep;
    hide RunOk;
    hide CallOk;
    hide TryEndExecution;
    hide ProbeFrom;
    hide AfterProbe;
    hide ReplayResult;
    hide ReleaseInputs;
    hide RunCall;
    var here := HereFor(s, c.fn);
    var s1 := TouchChildren(s, here);
    var tr := trail + [s1];
    assert Valid(s);
    TouchChildrenStep(s, here);
    TrailGrows(trail, s1);
    assert CallOk(s1, c) by { TouchKeepsCall(s, here, c); }
    hide TrailOk;
    match ProbeFrom(cfg, s1, ChildrenAt(s.children, here), c, 0, false)
    case Accept(child) =>
      assert ChildrenAt(s1.children, HereFor(s1, c.fn)) == ChildrenAt(s.children, here);
      AcceptedChild(cfg, s1, c, child);
      ReplayStep(cfg, s1, child, c, tr);
    case Raise(child) =>
      assert ChildrenAt(s1.children, HereFor(s1, c.fn)) == ChildrenAt(s.children, here);
      RaisedChild(cfg, s1, c, child);
      ReleaseStep(s1, child, c);
      TrailGrows(tr, ReleaseInputs(s1, child, c));
      assert trail + [s1, ReleaseInputs(s1, child, c)] == tr + [ReleaseInputs(s1, child, c)];
    case NoMatch(unexpected) =>
      if s1.current.Some? && Site(None, c.fn) in s1.children {
        var s2 := TryEndExecution(s1);
        TryEndExecutionStep(s1);
        if s2.current.None? {
          assert CallOk(s2, c) by { SameHeapCall(s1, s2, c); }
          RunOkTrail(ProbeChildren(cfg, s, c, trail), RunCall(cfg, s2, c), c);
          RunAgain(cfg, s2, c);
          TrailsJoin(tr, RunCall(cfg, s2, c).trail);
        } else {
          TrailGrows(tr, s2);
          assert trail + [s1, s2] == tr + [s2];
          AfterProbeTrail(cfg, s2, c, unexpected, trail + [s1, s2]);
        }
      } else {
        AfterProbeTrail(cfg, s1, c, unexpected, tr);
      }
  }

  lemma RunOkTrail(r: CallResult, q: CallResult, c: Call)
    requires RunOk(r, c) && r.outcome == q.outcome && r.ranIn == q.ranIn
    ensures RunOk(q, c)
  {
  }

  lemma TouchKeepsCall(s: State, k: Site, c: Call)
    requires CallOk(s, c)
    ensures CallOk(TouchChildren(s, k), c)
  {
  }

  lemma SameHeapCall(s: State, t: State, c: Call)
    requires CallOk(s, c) && s.heap == t.heap
    ensures CallOk(t, c)
  {
  }

  lemma RunAgain(cfg: Config, s: State, c: Call)
    requires Valid(s) && CallOk(s, c) && RunOk(RunCall(cfg, s, c), c)
    ensures TrailOk(RunCall(cfg, s, c).trail) && |RunCall(cfg, s, c).trail| > 0 && RunCall(cfg, s, c).trail[0] == s
    decreases Rank(s), 2
  {
    hide Valid;
    hide TrailOk;
    hide CallOk;
    hide RunBody;
    hide RunOk;
    var r := RunBody(cfg, s, c);
    RunOkTrail(RunCall(cfg, s, c), r, c);
    RunBodyTrail(cfg, s, c);
    hide Finish;
    if !r.outcome.Failed? {
      FinishTrail(cfg, r.trail, c.fn);
    }
  }

  lemma FinishTrail(cfg: Config, trail: seq<State>, fn: FunctionId)
    requires TrailOk(trail) && |trail| > 0
    ensures TrailOk(trail + [Finish(cfg, trail[|trail| - 1], fn)])
  {
    hide TrailOk;
    BookkeepingTrail(trail, Last(trail), Finish(cfg, Last(trail), fn));
  }

  /** The path is settled and the hint is there. */
  lemma BodyStarts(cfg: Config, s: State, c: Call)
    requires Valid(s) && CallOk(s, c)
    ensures var s1 := Settle(s);
            var s2 := EnsureHint(cfg, s1, c.fn, c.inputs);
            TrailOk([s, s1, s2]) && CallOk(s2, c)
  {
    hide Valid;
    hide LegalStep;
    hide CallOk;
    hide Settle;
    hide EnsureHint;
    hide TrailOk;
    var s1 := Settle(s);
    var s2 := EnsureHint(cfg, s1, c.fn, c.inputs);
    SettleStep(s);
    TrailStarts(s);
    TrailGrows([s], s1);
    assert [s] + [s1] == [s, s1];
    HintTrail(cfg, [s, s1], s1, c);
    assert [s, s1] + [s2] == [s, s1, s2];
    SameHeapCall(s, s2, c);
  }

  lemma HintTrail(cfg: Config, trail: seq<State>, s: State, c: Call)
    requires TrailOk(trail) && |trail| > 0 && Last(trail) == s
    ensures var t := EnsureHint(cfg, s, c.fn, c.inputs); TrailOk(trail + [t]) && t.heap == s.heap
  {
    hide TrailOk;
    hide MutatesForeignInput;
    BookkeepingTrail(trail, s, EnsureHint(cfg, s, c.fn, c.inputs));
  }

  lemma TrailStarts(s: State)
    requires Valid(s)
    ensures TrailOk([s]) && Last([s]) == s
  {
    hide Valid;
    hide LegalStep;
  }

  lemma WarmedUpOtherwise(cfg: Config, s: State, fn: FunctionId)
    ensures !NeedsWarmup(cfg, s, fn) ==> s.pathState != WarmingUp
    ensures s.pathState !in {Recording, WarmingUp} ==> s.pathState in {NoPath, Executing}
  {
    match s.pathState
    case NoPath =>
    case Recording =>
    case WarmingUp =>
    case Executing =>
  }

  lemma RunBodyTrail(cfg: Config, s: State, c: Call)
    requires Valid(s) && CallOk(s, c) && RunOk(RunBody(cfg, s, c), c)
    ensures TrailOk(RunBody(cfg, s, c).trail) && |RunBody(cfg, s, c).trail| > 0 && RunBody(cfg, s, c).trail[0] == s
    decreases Rank(s), 1
  {
    hide Valid;
    hide LegalStep;
    hide RunOk;
    hide CallOk;
    hide Settle;
    hide TrailOk;
    hide EnsureHint;
    hide HintAt;
    hide HereFor;
    hide NeedsWarmup;
    hide ExceedsLimit;
    hide ProbeChildren;
    hide WarmupResult;
    hide RecordResult;
    hide EagerResult;
    var s1 := Settle(s);
    var s2 := EnsureHint(cfg, s1, c.fn, c.inputs);
    var trail := [s, s1, s2];
    BodyStarts(cfg, s, c);
    WarmedUpOtherwise(cfg, s2, c.fn);
    var here := HereFor(s2, c.fn);
    if HintAt(s2, here) || ExceedsLimit(cfg, s2, here) {
      EagerTrail(s2, c, trail);
    } else if NeedsWarmup(cfg, s2, c.fn) {
      WarmupStep(s2, c, trail);
    } else if s2.pathState == Recording {
      RecordStep(cfg, s2, c, None, trail);
    } else {
      ProbeChildrenTrail(cfg, s2, c, trail);
    }
  }

  /** Every call, whatever it does, goes through valid states only and moves the path only
      by keeping it, extending it by one node, or abandoning it when that is allowed. */
  lemma CallIsLegal(cfg: Config, s: State, c: Call)
    requires Valid(s) && CallOk(s, c) && RunOk(RunCall(cfg, s, c), c)
    ensures TrailOk(RunCall(cfg, s, c).trail) && RunCall(cfg, s, c).trail[0] == s
  {
    RunAgain(cfg, s, c);
  }
}
