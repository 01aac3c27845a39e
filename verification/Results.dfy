/**
 What a call leaves to its caller when its function is run: the state it was run in, with the
 one step that its outcome names, and the outputs held.
 */
module Results {
  import opened Options
  import opened Storages
  import opened PathIndices
  import opened TreeState
  import opened PathOps
  import opened Checkpoints
  import opened Recordings
  import opened RecordingProofs
  import opened Replays
  import opened ReplayProofs
  import opened Warmups
  import opened Calls
  import opened CallProofs
  import opened Runs
  import opened RunHistory

  /** The function was run in `u`, and the step is that of the outcome. */
  function Stepped(cfg: Config, u: State, o: Outcome, c: Call): State {
    match o
    case RanEagerly => UserStep(u, HeapAfter(u, c.run), c.run.nextStorage)
    case WarmedUp(_) => WarmUp(u, c.fn, c.inputs, c.run)
    case _ => Record(u, c.fn, InfoOf(cfg, c.fn).statics, c.inputs, c.run)
  }

  predicate RunsFunction(o: Outcome) {
    o.RanEagerly? || o.WarmedUp? || o.Recorded?
  }

  /** The node that the outcome names is the one that the step made. */
  predicate NamesNode(u: State, o: Outcome) {
    (o.WarmedUp? ==> o.id == u.nextWarmup) && (o.Recorded? ==> o.id == u.nextGraph)
  }

  /** If the function was run, it was run in a state that was not replaying, and the call ends with
      the step of its outcome. */
  ghost predicate RanAs(cfg: Config, r: CallResult, c: Call) {
    RunsFunction(r.outcome) ==>
      && r.ranIn.Some? && |r.trail| > 0 && NamesNode(r.ranIn.value, r.outcome)
      && SameButPending(Stepped(cfg, r.ranIn.value, r.outcome, c), Last(r.trail))
  }

  lemma EagerRan(cfg: Config, s: State, c: Call, trail: seq<State>)
    ensures RanAs(cfg, EagerResult(s, c, trail), c)
  {
    hide UserStep;
  }

  lemma WarmupRan(cfg: Config, s: State, c: Call, trail: seq<State>)
    ensures RanAs(cfg, WarmupResult(s, c, trail), c)
  {
    hide WarmUp;
    hide Checkpoint;
  }

  lemma RecordRan(cfg: Config, s: State, c: Call, charge: Option<Site>, trail: seq<State>)
    ensures RanAs(cfg, RecordResult(cfg, s, c, charge, trail), c)
  {
    hide Record;
    hide Checkpoint;
  }

  lemma AfterProbeRan(cfg: Config, s: State, c: Call, unexpected: bool, trail: seq<State>)
    ensures RanAs(cfg, AfterProbe(cfg, s, c, unexpected, trail), c)
  {
    hide RanAs;
    hide UpdateHint;
    hide Charge;
    hide TryEndExecution;
    hide EagerResult;
    hide RecordResult;
    hide ExceedsLimit;
    var here := HereFor(s, c.fn);
    var s1 := if |InfoOf(cfg, c.fn).mutated| > 0 then UpdateHint(cfg, s, c.fn, c.inputs) else s;
    var s2 := if unexpected then Charge(s1, here) else s1;
    var s3 := TryEndExecution(s2);
    EagerRan(cfg, s1, c, trail + [s1]);
    EagerRan(cfg, s2, c, trail + [s1, s2]);
    RecordRan(cfg, s3, c, if unexpected then Some(here) else None, trail + [s1, s2, s3]);
  }

  lemma OtherwiseRan(cfg: Config, r: CallResult, c: Call)
    requires !RunsFunction(r.outcome)
    ensures RanAs(cfg, r, c)
  {
  }

  lemma LongerRan(cfg: Config, r: CallResult, c: Call, before: seq<State>)
    requires RanAs(cfg, r, c)
    ensures RanAs(cfg, r.(trail := before + r.trail), c)
  {
    hide Stepped;
    hide SameButPending;
  }

  lemma ProbeChildrenRan(cfg: Config, s: State, c: Call, trail: seq<State>)
    ensures RanAs(cfg, ProbeChildren(cfg, s, c, trail), c)
    decreases Rank(s), 0
  {
    hide RanAs;
    hide ProbeFrom;
    hide AfterProbe;
    hide TryEndExecution;
    hide RunCall;
    hide ReleaseInputs;
    hide StaticsStable;
    hide AliasedPriorsLive;
    var t := TouchChildren(s, HereFor(s, c.fn));
    var u := TryEndExecution(t);
    match ProbeFrom(cfg, t, ChildrenAt(s.children, HereFor(s, c.fn)), c, 0, false)
    case Accept(_) => OtherwiseRan(cfg, ProbeChildren(cfg, s, c, trail), c);
    case Raise(_) => OtherwiseRan(cfg, ProbeChildren(cfg, s, c, trail), c);
    case NoMatch(unexpected) =>
      AfterProbeRan(cfg, t, c, unexpected, trail + [t]);
      AfterProbeRan(cfg, u, c, unexpected, trail + [t, u]);
      if t.current.Some? && u.current.None? {
        RunCallRan(cfg, u, c);
        LongerRan(cfg, RunCall(cfg, u, c), c, trail + [t]);
      }
  }

  lemma RunBodyRan(cfg: Config, s: State, c: Call)
    ensures RanAs(cfg, RunBody(cfg, s, c), c)
    decreases Rank(s), 1
  {
    hide RanAs;
    hide Settle;
    hide EnsureHint;
    hide HintAt;
    hide ExceedsLimit;
    hide NeedsWarmup;
    hide EagerResult;
    hide WarmupResult;
    hide RecordResult;
    hide ProbeChildren;
    var q := EnsureHint(cfg, Settle(s), c.fn, c.inputs);
    var trail := [s, Settle(s), q];
    EagerRan(cfg, q, c, trail);
    WarmupRan(cfg, q, c, trail);
    RecordRan(cfg, q, c, None, trail);
    ProbeChildrenRan(cfg, q, c, trail);
  }

  /** A call that runs its function ends with the step of its outcome. */
  lemma RunCallRan(cfg: Config, s: State, c: Call)
    ensures RanAs(cfg, RunCall(cfg, s, c), c)
    decreases Rank(s), 2
  {
    hide RunBody;
    RunBodyRan(cfg, s, c);
    var r := RunBody(cfg, s, c);
    if RunsFunction(r.outcome) {
      FinishSame(cfg, Last(r.trail), c.fn);
      hide Finish;
      hide Stepped;
      SameButPendingTwice(Stepped(cfg, r.ranIn.value, r.outcome, c), Last(r.trail), Finish(cfg, Last(r.trail), c.fn));
      hide SameButPending;
    }
  }

  // ---------------------------------------------------------------- over runs

  /** The references are those that the function left. */
  ghost predicate Leaves(t: State, run: ModelRun) {
    forall x: StorageId :: Held(t.heap, x) <==> x in run.tensors || x in run.views
  }

  /** Node `id` is current and watches output `i` of the run, if it watches anything there. */
  ghost predicate Watches(t: State, id: GraphId, run: ModelRun, i: nat)
    requires i < |run.outs|
  {
    && t.current == Some(id) && id in t.slots && i < |t.slots[id]|
    && (t.slots[id][i].Some? ==>
          run.outs[i].RawTensor? && t.slots[id][i].value == WeakRef(run.outs[i].storage, run.outs[i].ptr, false))
  }

  lemma StepLeaves(cfg: Config, u: State, o: Outcome, c: Call)
    requires RunsFunction(o)
    ensures Leaves(Stepped(cfg, u, o, c), c.run)
  {
    hide WarmupRow;
    hide AllocateRow;
    hide FreeDead;
    hide NewRecord;
    hide RecordedSlots;
    hide RecordedPool;
    hide MarkAliased;
  }

  lemma RecordWatches(u: State, fn: FunctionId, statics: seq<nat>, inputs: seq<Input>, run: ModelRun, i: nat)
    requires i < |run.outs|
    ensures var t := Record(u, fn, statics, inputs, run);
            && Watches(t, u.nextGraph, run, i)
            && (t.slots[u.nextGraph][i].Some? <==> RecordedOuts(u, run)[i].Tracked? && run.outs[i].RawTensor?)
  {
    hide NewRecord;
    hide RecordedOuts;
    hide RecordedPool;
    hide MarkAliased;
  }

  lemma WarmupWatches(u: State, fn: FunctionId, inputs: seq<Input>, run: ModelRun, i: nat)
    requires i < |run.outs|
    ensures Watches(WarmUp(u, fn, inputs, run), u.nextWarmup, run, i)
  {
    hide NonGraphStorages;
    hide AllocateRow;
    hide FreeDead;
  }

  lemma PendingKeeps(s: State, t: State, run: ModelRun)
    requires SameButPending(s, t) && Leaves(s, run)
    ensures Leaves(t, run)
    ensures t.current == s.current && t.slots == s.slots && t.recs == s.recs && t.warm == s.warm
    ensures CurPath(t) == CurPath(s)
  {
  }

  /** In every run, a call that runs its function leaves exactly the references that the function
      left; run eagerly it leaves the path as it was. */
  lemma RunLeavesReferences(cfg: Config, states: seq<State>, events: seq<Event>, n: nat)
    requires IsRun(cfg, states, events) && n < |events| && events[n].Invoke?
    requires RunsFunction(RunCall(cfg, states[n], events[n].call).outcome)
    ensures Leaves(states[n + 1], events[n].call.run)
    ensures var r := RunCall(cfg, states[n], events[n].call);
            r.outcome.RanEagerly? ==> r.ranIn.Some? && var u := r.ranIn.value;
              states[n + 1].slots == u.slots && CurPath(states[n + 1]) == CurPath(u) && states[n + 1].current == u.current
  {
    var r, c, t := RunCall(cfg, states[n], events[n].call), events[n].call, states[n + 1];
    RunCallRan(cfg, states[n], c);
    assert Follow(cfg, states[n], events[n], t);
    CallFollows(cfg, states[n], c, t);
    StepLeaves(cfg, r.ranIn.value, r.outcome, c);
    hide IsRun;
    hide RunCall;
    hide Follow;
    EagerKeeps(r.ranIn.value, c);
    hide UserStep;
    hide WarmUp;
    hide Record;
    hide Leaves;
    PendingKeeps(Stepped(cfg, r.ranIn.value, r.outcome, c), t, c.run);
  }

  lemma EagerKeeps(u: State, c: Call)
    ensures var t := UserStep(u, HeapAfter(u, c.run), c.run.nextStorage);
            t.slots == u.slots && t.current == u.current && CurPath(t) == CurPath(u)
  {
    hide FreeDead;
  }

  /** In every run, after a recording or a warmup every output of the function is held, and every
      output that the new node watches is live at the end of the path, at its address. */
  lemma RunHandsBack(cfg: Config, states: seq<State>, events: seq<Event>, n: nat, i: nat)
    requires IsRun(cfg, states, events) && n < |events| && events[n].Invoke? && i < |events[n].call.run.outs|
    requires var o := RunCall(cfg, states[n], events[n].call).outcome; o.Recorded? || o.WarmedUp?
    ensures var id, run, t := RunCall(cfg, states[n], events[n].call).outcome.id, events[n].call.run, states[n + 1];
            && Watches(t, id, run, i) && |CurPath(t)| > 0
            && (run.outs[i].RawTensor? ==> Held(t.heap, run.outs[i].storage))
            && (t.slots[id][i].Some? ==> LiveAt(t.heap, t.slots, CurPath(t), |CurPath(t)| - 1, i) && !NoneLive(t.heap, t.slots, CurPath(t)))
  {
    RunIsValid(cfg, states, events, n + 1);
    RunLeavesReferences(cfg, states, events, n);
    FollowedOutputs(cfg, states, events, n, i);
    RunWatches(cfg, states, events, n, i);
    hide IsRun;
    hide RunCall;
    hide Leaves;
    hide Watches;
    hide Valid;
    hide NoneLive;
    WatchedIsLive(states[n + 1], RunCall(cfg, states[n], events[n].call).outcome.id, events[n].call.run, i);
  }

  lemma RunWatches(cfg: Config, states: seq<State>, events: seq<Event>, n: nat, i: nat)
    requires IsRun(cfg, states, events) && n < |events| && events[n].Invoke? && i < |events[n].call.run.outs|
    requires var o := RunCall(cfg, states[n], events[n].call).outcome; o.Recorded? || o.WarmedUp?
    ensures Watches(states[n + 1], RunCall(cfg, states[n], events[n].call).outcome.id, events[n].call.run, i)
  {
    var r, c, t := RunCall(cfg, states[n], events[n].call), events[n].call, states[n + 1];
    RunCallRan(cfg, states[n], c);
    assert Follow(cfg, states[n], events[n], t);
    CallFollows(cfg, states[n], c, t);
    hide IsRun;
    hide RunCall;
    hide Follow;
    StepWatches(cfg, r.ranIn.value, r.outcome, c, i);
    hide Stepped;
    hide NamesNode;
  }

  lemma StepWatches(cfg: Config, u: State, o: Outcome, c: Call, i: nat)
    requires (o.Recorded? || o.WarmedUp?) && NamesNode(u, o) && i < |c.run.outs|
    ensures Watches(Stepped(cfg, u, o, c), o.id, c.run, i)
  {
    RecordWatches(u, c.fn, InfoOf(cfg, c.fn).statics, c.inputs, c.run, i);
    WarmupWatches(u, c.fn, c.inputs, c.run, i);
    hide Watches;
    hide Record;
    hide WarmUp;
    hide RecordedOuts;
  }

  lemma FollowedOutputs(cfg: Config, states: seq<State>, events: seq<Event>, n: nat, i: nat)
    requires IsRun(cfg, states, events) && n < |events| && events[n].Invoke? && i < |events[n].call.run.outs|
    requires var o := RunCall(cfg, states[n], events[n].call).outcome; o.Recorded? || o.WarmedUp?
    ensures var run := events[n].call.run;
            run.outs[i].RawTensor? ==> run.outs[i].storage in run.tensors || run.outs[i].storage in run.views
  {
    var r, c := RunCall(cfg, states[n], events[n].call), events[n].call;
    assert Follow(cfg, states[n], events[n], states[n + 1]);
    hide IsRun;
    hide RunCall;
    assert RunOk(r, c);
    hide Follow;
    OutputsHeld(r, c, i);
  }

  lemma OutputsHeld(r: CallResult, c: Call, i: nat)
    requires RunOk(r, c) && (r.outcome.Recorded? || r.outcome.WarmedUp?) && i < |c.run.outs|
    ensures r.ranIn.Some?
    ensures c.run.outs[i].RawTensor? ==> c.run.outs[i].storage in c.run.tensors || c.run.outs[i].storage in c.run.views
  {
    hide OutputOnPath;
    hide OutputIsNew;
    hide FreeDead;
    hide NonGraphStorages;
  }

  lemma WatchedIsLive(t: State, id: GraphId, run: ModelRun, i: nat)
    requires Valid(t) && Leaves(t, run) && i < |run.outs| && Watches(t, id, run, i)
    requires run.outs[i].RawTensor? ==> run.outs[i].storage in run.tensors || run.outs[i].storage in run.views
    ensures |CurPath(t)| > 0 && (run.outs[i].RawTensor? ==> Held(t.heap, run.outs[i].storage))
    ensures t.slots[id][i].Some? ==> LiveAt(t.heap, t.slots, CurPath(t), |CurPath(t)| - 1, i) && !NoneLive(t.heap, t.slots, CurPath(t))
  {
    ValidTracks(t);
    EndsAtCurrent(t);
    hide Valid;
    if t.slots[id][i].Some? {
      LiveAtIsHeld(t.heap, t.slots, CurPath(t), |CurPath(t)| - 1, i);
    }
  }

  lemma EndsAtCurrent(t: State)
    requires Valid(t) && t.current.Some?
    ensures |CurPath(t)| > 0 && CurPath(t)[|CurPath(t)| - 1] == t.current.value
  {
    hide PoolOk;
    assert CurrentOk(t);
  }
}
