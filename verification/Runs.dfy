/**
 Whole runs of the manager: any interleaving of user code, generation changes and
 calls, from the initial state up to the first call that raises inside a node.
 */
module Runs {
  import opened Options
  import opened Storages
  import opened PathIndices
  import opened TreeState
  import opened PathOps
  import opened Checkpoints
  import opened Recordings
  import opened RecordingProofs
  import opened Replays
  import opened ReplayProofs
  import opened Warmups
  import opened Calls
  import opened CallProofs

  datatype Event =
    | UserCode(heap: Heap, nextStorage: StorageId)
    | NewInvocation(generation: int)
    | MarkStepBegin
    | RunningBackward
    | Invoke(call: Call)

  /** `t` is what event `e` makes of `s`. A call whose test raised may be followed by others; one
      that raised in a node it had already entered has no successor. */
  ghost predicate Follow(cfg: Config, s: State, e: Event, t: State) {
    match e
    case UserCode(h, n) => Follows(h, s.heap, s.nextStorage, n) && t == UserStep(s, h, n)
    case NewInvocation(g) => t == s.(generation := g)
    case MarkStepBegin => t == s.(markStep := s.markStep - 1)
    case RunningBackward => t == s.(pendingBackward := false)
    case Invoke(c) =>
      var r := RunCall(cfg, s, c);
      CallOk(s, c) && RunOk(r, c) && !FailedInNode(r.outcome) && |r.trail| > 0 && t == r.trail[|r.trail| - 1]
  }

  /** The manager had made the node current when the call raised. */
  predicate FailedInNode(o: Outcome) {
    o in {Failed(StaticInputMoved), Failed(AliasedOutputGone)}
  }

  ghost predicate IsRun(cfg: Config, states: seq<State>, events: seq<Event>) {
    && |states| == |events| + 1 && states[0] == Initial
    && forall k :: 0 <= k < |events| ==> Follow(cfg, states[k], events[k], states[k + 1])
  }

  lemma FollowKeepsValid(cfg: Config, s: State, e: Event, t: State)
    requires Valid(s) && Follow(cfg, s, e, t)
    ensures Valid(t)
  {
    hide Valid;
    hide RunCall;
    hide RunOk;
    hide CallOk;
    hide LegalStep;
    match e
    case UserCode(h, n) => UserStepValid(s, h, n);
    case Invoke(c) =>
      CallIsLegal(cfg, s, c);
      assert Valid(RunCall(cfg, s, c).trail[|RunCall(cfg, s, c).trail| - 1]);
    case NewInvocation(g) => ValidFrame(s, t);
    case MarkStepBegin => ValidFrame(s, t);
    case RunningBackward => ValidFrame(s, t);
  }

  /** In every run, every state satisfies the invariant. */
  lemma {:induction false} RunIsValid(cfg: Config, states: seq<State>, events: seq<Event>, k: nat)
    requires IsRun(cfg, states, events) && k < |states|
    ensures Valid(states[k])
  {
    hide Valid;
    hide Follow;
    if k == 0 {
      InitialIsValid();
    } else {
      RunIsValid(cfg, states, events, k - 1);
      assert Follow(cfg, states[k - 1], events[k - 1], states[k]);
      FollowKeepsValid(cfg, states[k - 1], events[k - 1], states[k]);
    }
  }

  /** The pool holds exactly the live storages of the path, each owning its block, while
      recording or warming up, and nothing otherwise. */
  lemma RunKeepsPoolExact(cfg: Config, states: seq<State>, events: seq<Event>, k: nat)
    requires IsRun(cfg, states, events) && k < |states|
    ensures states[k].pathState in {Recording, WarmingUp} ==>
              PoolExact(states[k].pool, states[k].heap, states[k].slots, CurPath(states[k])) && PathUncached(states[k])
    ensures states[k].pathState in {NoPath, Executing} ==> states[k].pool == map[]
  {
    hide IsRun;
    hide Sound;
    RunIsValid(cfg, states, events, k);
  }

  /** No event drops a path early: calls go only through steps that keep the path, extend it by
      one node or abandon it when that is allowed, and other events keep it. */
  lemma RunMovesPathsLegally(cfg: Config, states: seq<State>, events: seq<Event>, n: nat)
    requires IsRun(cfg, states, events) && n < |events|
    ensures !events[n].Invoke? ==> PathKept(states[n], states[n + 1])
    ensures events[n].Invoke? ==>
              var trail := RunCall(cfg, states[n], events[n].call).trail;
              TrailOk(trail) && trail[0] == states[n] && Last(trail) == states[n + 1]
  {
    hide Valid;
    hide RunCall;
    hide RunOk;
    hide CallOk;
    hide TrailOk;
    RunIsValid(cfg, states, events, n);
    assert Follow(cfg, states[n], events[n], states[n + 1]);
    if events[n].Invoke? {
      CallIsLegal(cfg, states[n], events[n].call);
      TrailNonempty(RunCall(cfg, states[n], events[n].call).trail);
    }
  }

  lemma TrailNonempty(trail: seq<State>)
    requires TrailOk(trail)
    ensures |trail| > 0
  {
  }

  /** The cheap liveness queries of the current node agree with a full scan. */
  lemma RunKeepsFastLiveness(cfg: Config, states: seq<State>, events: seq<Event>, k: nat)
    requires IsRun(cfg, states, events) && k < |states|
    ensures AllOutputsAreDead(states[k]) <==> NoneLive(states[k].heap, states[k].slots, CurPath(states[k]))
    ensures forall w :: w in PathLiveWeakrefs(states[k]) <==> LiveRef(states[k].heap, states[k].slots, CurPath(states[k]), w)
  {
    hide IsRun;
    hide Sound;
    RunIsValid(cfg, states, events, k);
    FastLivenessIsExact(states[k]);
  }

  /** The state names the kind of the current node, and a path is graph nodes first and
      warmup nodes after; graph ids are never negative and warmup ids always are. */
  lemma PathShape(s: State, d: nat, e: nat)
    requires Sound(s) && d <= e < |CurPath(s)|
    ensures CurPath(s)[e] in s.recs ==> CurPath(s)[d] in s.recs
    ensures s.pathState in {Recording, Executing} ==> CurPath(s)[d] in s.recs
    ensures s.pathState == WarmingUp ==> CurPath(s)[|CurPath(s)| - 1] in s.warm
    ensures CurPath(s)[d] in s.recs ==> CurPath(s)[d] >= 0
    ensures CurPath(s)[d] in s.warm ==> CurPath(s)[d] < 0
  {
    var p := CurPath(s);
    var node := p[e];
    if node in s.recs {
      assert RecordOk(s.recs, node);
      assert s.recs[node].path == p[..e + 1];
      assert p[..e + 1][d] == p[d];
    }
    if s.pathState in {Recording, Executing} {
      assert RecordOk(s.recs, s.current.value);
      assert s.recs[s.current.value].path[d] == p[d];
    }
  }

  lemma RunKeepsPathShape(cfg: Config, states: seq<State>, events: seq<Event>, k: nat, d: nat, e: nat)
    requires IsRun(cfg, states, events) && k < |states| && d <= e < |CurPath(states[k])|
    ensures states[k].current.None? <==> states[k].pathState == NoPath
    ensures CurPath(states[k])[e] in states[k].recs ==> CurPath(states[k])[d] in states[k].recs
    ensures states[k].pathState in {Recording, Executing} ==> CurPath(states[k])[d] in states[k].recs
    ensures states[k].pathState == WarmingUp ==> CurPath(states[k])[|CurPath(states[k])| - 1] in states[k].warm
    ensures states[k].recs.Keys !! states[k].warm.Keys
  {
    hide IsRun;
    RunIsValid(cfg, states, events, k);
    PathShape(states[k], d, e);
    StateNamesNode(states[k]);
    IdsApart(states[k]);
  }

  lemma IdsApart(s: State)
    requires Sound(s)
    ensures s.recs.Keys !! s.warm.Keys
  {
    assert forall id :: id in s.recs ==> id >= 0;
    assert forall id :: id in s.warm ==> id < 0;
  }

  // ---------------------------------------------------------------- replays

  /** The node passed every test, the last one included. */
  predicate Passed(cfg: Config, s: State, id: GraphId, c: Call) {
    && id in s.recs && StatusOf(cfg, s, c, id) == Success
    && (RerecordsOnMovedStatics(cfg) || StaticsStable(s.recs[id], ClearAt(c.inputs, s.recs[id].managed)))
  }

  /** Where in its trail a call replayed; after that it only sets the pending-backward flag. */
  ghost predicate ReplaysAt(cfg: Config, r: CallResult, c: Call, id: GraphId, k: nat) {
    && k + 1 < |r.trail| && CanReplay(r.trail[k], id, c.rest, c.inputs) && Passed(cfg, r.trail[k], id, c)
    && Replayable(r.trail[k], id) && r.trail[k + 1] == Replay(r.trail[k], id, c.rest)
    && SameButPending(r.trail[k + 1], Last(r.trail))
  }

  predicate SameButPending(s: State, t: State) {
    t == s.(pendingBackward := t.pendingBackward)
  }

  lemma SameButPendingTwice(s: State, t: State, u: State)
    requires SameButPending(s, t) && SameButPending(t, u)
    ensures SameButPending(s, u)
  {
  }

  lemma FinishSame(cfg: Config, s: State, fn: FunctionId)
    ensures SameButPending(s, Finish(cfg, s, fn))
  {
    hide InfoOf;
    match InfoOf(cfg, fn).mode
    case Forward =>
    case Backward =>
    case Inference =>
  }

  lemma ReplayResultOrigin(cfg: Config, s: State, id: GraphId, c: Call, trail: seq<State>)
    requires CanProbe(s, id, c.rest, c.inputs) && Accepted(s, id, c.rest, c.inputs) && StatusOf(cfg, s, c, id) == Success
    requires |trail| > 0 && Last(trail) == s && ReplayResult(cfg, s, id, c, trail).outcome.Replayed?
    ensures ReplaysAt(cfg, ReplayResult(cfg, s, id, c, trail), c, id, |trail| - 1)
  {
    hide CanProbe;
    hide Accepted;
    hide AliasedPriorsLive;
    hide StaticsStable;
  }

  lemma ProbeReplayOrigin(cfg: Config, s: State, c: Call, trail: seq<State>) returns (k: nat)
    requires Valid(s) && s.pathState in {NoPath, Executing} && CallOk(s, c)
    requires ProbeChildren(cfg, s, c, trail).outcome.Replayed?
    ensures ReplaysAt(cfg, ProbeChildren(cfg, s, c, trail), c, ProbeChildren(cfg, s, c, trail).outcome.id, k)
    decreases Rank(s), 0
  {
    hide Valid;
    hide CanReplay;
    hide CanProbe;
    hide Accepted;
    hide Replay;
    hide TryEndExecution;
    hide ProbeFrom;
    hide AfterProbe;
    hide ReplayResult;
    hide CallOk;
    hide RunCall;
    hide Replayable;
    var here := HereFor(s, c.fn);
    var s1 := TouchChildren(s, here);
    TouchChildrenStep(s, here);
    TouchKeepsCall(s, here, c);
    k := 0;
    match ProbeFrom(cfg, s1, ChildrenAt(s.children, here), c, 0, false)
    case Accept(child) =>
      assert ChildrenAt(s1.children, HereFor(s1, c.fn)) == ChildrenAt(s.children, here);
      AcceptedChild(cfg, s1, c, child);
      ReplayOutcome(cfg, s1, child, c, trail + [s1]);
      ReplayResultOrigin(cfg, s1, child, c, trail + [s1]);
      k := |trail|;
    case Raise(_) =>
    case NoMatch(unexpected) =>
      AfterProbeNeverReplays(cfg, s1, c, unexpected, trail + [s1]);
      AfterProbeNeverReplays(cfg, TryEndExecution(s1), c, unexpected, trail + [s1, TryEndExecution(s1)]);
      if s1.current.Some? && Site(None, c.fn) in s1.children && TryEndExecution(s1).current.None? {
        TryEndExecutionStep(s1);
        SameHeapCall(s1, TryEndExecution(s1), c);
        var j := RunReplayOrigin(cfg, TryEndExecution(s1), c);
        k := |trail| + 1 + j;
      }
  }

  lemma ReplayOutcome(cfg: Config, s: State, id: GraphId, c: Call, trail: seq<State>)
    requires id in s.recs && ReplayResult(cfg, s, id, c, trail).outcome.Replayed?
    ensures ReplayResult(cfg, s, id, c, trail).outcome.id == id
  {
  }

  lemma AfterProbeNeverReplays(cfg: Config, s: State, c: Call, unexpected: bool, trail: seq<State>)
    ensures !AfterProbe(cfg, s, c, unexpected, trail).outcome.Replayed?
  {
    hide TryEndExecution;
    hide MutatesForeignInput;
    hide ExceedsLimit;
  }

  lemma RunReplayOrigin(cfg: Config, s: State, c: Call) returns (k: nat)
    requires Valid(s) && CallOk(s, c) && RunCall(cfg, s, c).outcome.Replayed?
    ensures ReplaysAt(cfg, RunCall(cfg, s, c), c, RunCall(cfg, s, c).outcome.id, k)
    decreases Rank(s), 2
  {
    hide Valid;
    hide CanReplay;
    hide Replay;
    hide CallOk;
    hide Settle;
    hide EnsureHint;
    hide ProbeChildren;
    hide Finish;
    hide CanReplay;
    hide Replayable;
    var s1 := Settle(s);
    var s2 := EnsureHint(cfg, s1, c.fn, c.inputs);
    BodyStarts(cfg, s, c);
    LastIsValid(s, s1, s2);
    OnlyProbesReplay(cfg, s, c);
    k := ProbeReplayOrigin(cfg, s2, c, [s, s1, s2]);
    hide RunBody;
    hide Passed;
    var r := ProbeChildren(cfg, s2, c, [s, s1, s2]);
    FinishedReplay(cfg, r, c, r.outcome.id, k);
    hide ReplaysAt;
  }

  lemma FinishedReplay(cfg: Config, r: CallResult, c: Call, id: GraphId, k: nat)
    requires ReplaysAt(cfg, r, c, id, k)
    ensures ReplaysAt(cfg, r.(trail := r.trail + [Finish(cfg, Last(r.trail), c.fn)]), c, id, k)
  {
    hide CanReplay;
    hide Passed;
    hide Replayable;
    hide Replay;
    var t := Finish(cfg, Last(r.trail), c.fn);
    FinishSame(cfg, Last(r.trail), c.fn);
    SameButPendingTwice(r.trail[k + 1], Last(r.trail), t);
    hide SameButPending;
    hide Finish;
    var longer := r.trail + [t];
    assert longer[k] == r.trail[k] && longer[k + 1] == r.trail[k + 1];
  }

  lemma LastIsValid(s: State, s1: State, s2: State)
    requires TrailOk([s, s1, s2])
    ensures Valid(s2)
  {
    hide Valid;
    hide LegalStep;
    assert [s, s1, s2][2] == s2;
  }

  /** A call that replays does so by probing children. */
  lemma OnlyProbesReplay(cfg: Config, s: State, c: Call)
    requires RunCall(cfg, s, c).outcome.Replayed?
    ensures var s1 := Settle(s);
            var s2 := EnsureHint(cfg, s1, c.fn, c.inputs);
            s2.pathState in {NoPath, Executing} && RunBody(cfg, s, c) == ProbeChildren(cfg, s2, c, [s, s1, s2])
  {
    hide Settle;
    hide EnsureHint;
    hide ProbeChildren;
    hide Finish;
    hide HintAt;
    hide ExceedsLimit;
  }

  /** In every run, a call that replays a node leaves alone every live output of the path:
      each slot live when the node was accepted was live all through the node's recording,
      and its address was never given to the node's kernels. */
  lemma RunNeverClobbers(cfg: Config, states: seq<State>, events: seq<Event>, n: nat) returns (k: nat)
    requires IsRun(cfg, states, events) && n < |events| && events[n].Invoke?
    requires RunCall(cfg, states[n], events[n].call).outcome.Replayed?
    ensures var r, c := RunCall(cfg, states[n], events[n].call), events[n].call;
            && ReplaysAt(cfg, r, c, r.outcome.id, k)
            && forall d: nat, i: nat ::
                 LiveAt(HeapWith(c.rest, ClearAt(c.inputs, r.trail[k].recs[r.outcome.id].managed)), r.trail[k].slots, CurPath(r.trail[k]), d, i) ==>
                 && At(r.trail[k].recs[r.outcome.id].before, d, i) && At(r.trail[k].recs[r.outcome.id].after, d, i)
                 && SlotAt(r.trail[k].slots, CurPath(r.trail[k]), d, i).ptr !in r.trail[k].recs[r.outcome.id].scratch
  {
    hide Valid;
    hide Follow;
    hide RunCall;
    hide Accepted;
    hide AliasedPriorsLive;
    RunIsValid(cfg, states, events, n);
    assert Follow(cfg, states[n], events[n], states[n + 1]);
    CallOkOf(cfg, states[n], events[n], states[n + 1]);
    var c := events[n].call;
    k := RunReplayOrigin(cfg, states[n], c);
    var r := RunCall(cfg, states[n], c);
    var at, id := r.trail[k], r.outcome.id;
    forall d: nat, i: nat | LiveAt(HeapWith(c.rest, ClearAt(c.inputs, at.recs[id].managed)), at.slots, CurPath(at), d, i)
      ensures At(at.recs[id].before, d, i) && At(at.recs[id].after, d, i)
      ensures SlotAt(at.slots, CurPath(at), d, i).ptr !in at.recs[id].scratch
    {
      AcceptedLiveness(at, id, c.rest, c.inputs, d, i);
      ReplayNeverClobbers(at, id, c.rest, c.inputs, d, i);
    }
  }

  lemma CallOkOf(cfg: Config, s: State, e: Event, t: State)
    requires e.Invoke? && Follow(cfg, s, e, t)
    ensures CallOk(s, e.call)
  {
  }
}
