/**
 Runs told by their events: which call made each node, what a replay relies on from the
 call that recorded it, and when a path may be dropped.
 */
module RunHistory {
  import opened Options
  import opened Storages
  import opened PathIndices
  import opened TreeState
  import opened PathOps
  import opened Recordings
  import opened Replays
  import opened ReplayProofs
  import opened Acceptance
  import opened Warmups
  import opened Calls
  import opened CallProofs
  import opened CallEffects
  import opened Runs

  // ---------------------------------------------------------------- one event

  /** What any event changes of the tables that calls grow. */
  lemma EventEffects(cfg: Config, states: seq<State>, events: seq<Event>, n: nat)
    requires IsRun(cfg, states, events) && n < |events|
    ensures var s, t := states[n], states[n + 1];
            if events[n].Invoke? then
              var r, c := RunCall(cfg, s, events[n].call), events[n].call;
              && Effects(cfg, s, r, c) && Last(r.trail) == t && EndsAs(cfg, s, r.outcome, r.ranIn, c, t)
              && t.pendingBackward == (if r.outcome.Failed? then s.pendingBackward else FlagAfter(cfg, c.fn, s.pendingBackward))
            else
              && NoNodeAdded(s, t) && t.warmedUp == s.warmedUp && t.currentGen == s.currentGen
              && (t.pendingBackward == if events[n].RunningBackward? then false else s.pendingBackward)
  {
    assert Follow(cfg, states[n], events[n], states[n + 1]);
    hide IsRun;
    if events[n].Invoke? {
      RunCallEffects(cfg, states[n], events[n].call);
      FailedKeepsFlag(cfg, states[n], RunCall(cfg, states[n], events[n].call), events[n].call);
      CallFollows(cfg, states[n], events[n].call, states[n + 1]);
      hide RunCall;
      hide EndsAs;
      hide DropsFirst;
      hide Follow;
      hide FlagAfter;
    } else {
      OtherFollows(cfg, states[n], events[n], states[n + 1]);
      hide RunCall;
      hide Follow;
      hide NoNodeAdded;
    }
  }

  lemma FailedKeepsFlag(cfg: Config, s: State, r: CallResult, c: Call)
    requires Effects(cfg, s, r, c)
    ensures r.outcome.Failed? ==> Last(r.trail).pendingBackward == s.pendingBackward
    ensures |r.trail| > 0 && EndsAs(cfg, s, r.outcome, r.ranIn, c, Last(r.trail))
  {
    hide NodeAdded;
    hide NoNodeAdded;
    hide DropsFirst;
  }

  lemma CallFollows(cfg: Config, s: State, c: Call, t: State)
    requires Follow(cfg, s, Invoke(c), t)
    ensures |RunCall(cfg, s, c).trail| > 0 && t == Last(RunCall(cfg, s, c).trail)
  {
    hide RunCall;
    hide CallOk;
    hide RunOk;
  }

  lemma OtherFollows(cfg: Config, s: State, e: Event, t: State)
    requires Follow(cfg, s, e, t) && !e.Invoke?
    ensures NoNodeAdded(s, t) && t.warmedUp == s.warmedUp && t.currentGen == s.currentGen
    ensures t.pendingBackward == if e.RunningBackward? then false else s.pendingBackward
  {
    hide RunCall;
    hide FreeDead;
    hide Follows;
  }

  // ---------------------------------------------------------------- where nodes come from

  /** The record was made by this call, run in `u`. */
  ghost predicate RecordedBy(cfg: Config, s: State, c: Call, id: GraphId, r: GraphRecord) {
    var call := RunCall(cfg, s, c);
    && call.outcome.Recorded? && call.outcome.id == id && call.ranIn.Some? && Same(s, call.ranIn.value)
    && r == NewRecord(call.ranIn.value, c.fn, InfoOf(cfg, c.fn).statics, c.inputs, c.run)
  }

  /** Every node of a run was recorded by one of its calls and is as that call left it. */
  lemma {:induction false} RunRecorder(cfg: Config, states: seq<State>, events: seq<Event>, n: nat, id: GraphId) returns (m: nat)
    requires IsRun(cfg, states, events) && n < |states| && id in states[n].recs
    ensures m < n && events[m].Invoke? && RecordedBy(cfg, states[m], events[m].call, id, states[n].recs[id])
  {
    hide IsRun;
    hide RunCall;
    hide NewRecord;
    hide Same;
    m := 0;
    if n == 0 {
      InitialHasNoNodes(cfg, states, events);
    } else {
      IsRunLengths(cfg, states, events);
      EventEffects(cfg, states, events, n - 1);
      hide DropsFirst;
      if id in states[n - 1].recs && states[n].recs[id] == states[n - 1].recs[id] {
        m := RunRecorder(cfg, states, events, n - 1, id);
      } else {
        m := n - 1;
      }
    }
  }

  lemma IsRunLengths(cfg: Config, states: seq<State>, events: seq<Event>)
    requires IsRun(cfg, states, events)
    ensures |states| == |events| + 1 && states[0] == Initial
  {
  }

  lemma InitialHasNoNodes(cfg: Config, states: seq<State>, events: seq<Event>)
    requires IsRun(cfg, states, events)
    ensures states[0].recs == map[] && states[0].warmedUp == {} && states[0].unaliased == map[]
    ensures forall k: Site :: ChildrenAt(states[0].children, k) == []
  {
  }

  // ---------------------------------------------------------------- replays

  /** The node a call replayed was there before, and its record did not change in the call. */
  lemma ReplayedRecord(cfg: Config, states: seq<State>, events: seq<Event>, n: nat, k: nat)
    requires IsRun(cfg, states, events) && n < |events| && events[n].Invoke?
    requires RunCall(cfg, states[n], events[n].call).outcome.Replayed?
    requires var r := RunCall(cfg, states[n], events[n].call); ReplaysAt(cfg, r, events[n].call, r.outcome.id, k)
    ensures var r := RunCall(cfg, states[n], events[n].call);
            && r.outcome.id in states[n].recs && r.trail[k].recs == states[n].recs && SameButPending(r.trail[k + 1], states[n + 1])
  {
    EventEffects(cfg, states, events, n);
    hide IsRun;
    hide RunCall;
    hide CanReplay;
    hide Passed;
    hide DropsFirst;
    hide RebuiltRow;
    hide InitialCache;
    hide RowStorages;
    hide CachePlaces;
  }

  /** In every run, when a call replays a node, every input that came from the path when the node
      was recorded, and every static input, is at the address it had in the call that recorded it. */
  lemma RunReplaysWhereRecorded(cfg: Config, states: seq<State>, events: seq<Event>, n: nat) returns (m: nat)
    requires IsRun(cfg, states, events) && n < |events| && events[n].Invoke?
    requires RunCall(cfg, states[n], events[n].call).outcome.Replayed?
    ensures var id := RunCall(cfg, states[n], events[n].call).outcome.id;
            && m < n && events[m].Invoke? && id in states[n].recs
            && RecordedBy(cfg, states[m], events[m].call, id, states[n].recs[id])
    ensures var u, first := RunCall(cfg, states[m], events[m].call).ranIn.value, events[m].call;
            forall i: nat :: FromPath(u, first.inputs, i) || i in InfoOf(cfg, first.fn).statics ==>
              SameAddress(first.inputs, events[n].call.inputs, i)
  {
    RunIsValid(cfg, states, events, n);
    var r, c := RunCall(cfg, states[n], events[n].call), events[n].call;
    InvokedCallOk(cfg, states, events, n);
    var k := RunReplayOrigin(cfg, states[n], c);
    ReplayedRecord(cfg, states, events, n, k);
    m := RunRecorder(cfg, states, events, n, r.outcome.id);
    var u, first := RunCall(cfg, states[m], events[m].call).ranIn.value, events[m].call;
    hide IsRun;
    hide RunCall;
    hide Valid;
    hide CanReplay;
    hide NewRecord;
    hide CheckInvariants;
    hide StaticsStable;
    hide FromPath;
    hide SameAddress;
    hide Same;
    forall i: nat | FromPath(u, first.inputs, i) || i in InfoOf(cfg, first.fn).statics
      ensures SameAddress(first.inputs, c.inputs, i)
    {
      ReplayedWhereRecorded(u, first.fn, InfoOf(cfg, first.fn).statics, first.inputs, first.run,
                            RerecordsOnMovedStatics(cfg), r.trail[k], c.rest, c.inputs, i);
    }
  }

  lemma InvokedCallOk(cfg: Config, states: seq<State>, events: seq<Event>, n: nat)
    requires IsRun(cfg, states, events) && n < |events| && events[n].Invoke?
    ensures CallOk(states[n], events[n].call)
  {
    assert Follow(cfg, states[n], events[n], states[n + 1]);
    hide RunCall;
  }

  /** In every run, when a call replays a node, no live output of the path lies at an address that
      the call that recorded the node gave to its kernels. */
  lemma RunNeverOverwrites(cfg: Config, states: seq<State>, events: seq<Event>, n: nat) returns (m: nat, k: nat)
    requires IsRun(cfg, states, events) && n < |events| && events[n].Invoke?
    requires RunCall(cfg, states[n], events[n].call).outcome.Replayed?
    ensures var r, c := RunCall(cfg, states[n], events[n].call), events[n].call;
            && m < n && events[m].Invoke? && r.outcome.id in states[n].recs
            && RecordedBy(cfg, states[m], events[m].call, r.outcome.id, states[n].recs[r.outcome.id])
            && ReplaysAt(cfg, r, c, r.outcome.id, k)
            && forall d: nat, i: nat ::
                 LiveAt(HeapWith(c.rest, ClearAt(c.inputs, r.trail[k].recs[r.outcome.id].managed)), r.trail[k].slots, CurPath(r.trail[k]), d, i) ==>
                 SlotAt(r.trail[k].slots, CurPath(r.trail[k]), d, i).ptr !in events[m].call.run.scratch
  {
    var r, c := RunCall(cfg, states[n], events[n].call), events[n].call;
    k := RunNeverClobbers(cfg, states, events, n);
    ReplayedRecord(cfg, states, events, n, k);
    m := RunRecorder(cfg, states, events, n, r.outcome.id);
    ScratchIsTheRuns(cfg, states[m], events[m].call, r.outcome.id, states[n].recs[r.outcome.id]);
    hide IsRun;
    hide RunCall;
    hide ReplaysAt;
    hide RecordedBy;
  }

  lemma ScratchIsTheRuns(cfg: Config, s: State, c: Call, id: GraphId, r: GraphRecord)
    requires RecordedBy(cfg, s, c, id, r)
    ensures r.scratch == c.run.scratch
  {
    hide RunCall;
    hide Same;
  }

  /** In every run, after a replay of a node with a tracked output every such output is live: the
      path is not dead, and the caller holds what it was given. */
  lemma RunHandsOut(cfg: Config, states: seq<State>, events: seq<Event>, n: nat, i: nat)
    requires IsRun(cfg, states, events) && n < |events| && events[n].Invoke?
    requires RunCall(cfg, states[n], events[n].call).outcome.Replayed?
    ensures var id := RunCall(cfg, states[n], events[n].call).outcome.id;
            var t := states[n + 1];
            id in t.recs && (i < |t.recs[id].outs| && t.recs[id].outs[i].Tracked? ==>
              && |CurPath(t)| > 0 && CurPath(t)[|CurPath(t)| - 1] == id
              && LiveAt(t.heap, t.slots, CurPath(t), |CurPath(t)| - 1, i) && !NoneLive(t.heap, t.slots, CurPath(t)))
  {
    RunIsValid(cfg, states, events, n);
    var r, c := RunCall(cfg, states[n], events[n].call), events[n].call;
    InvokedCallOk(cfg, states, events, n);
    var k := RunReplayOrigin(cfg, states[n], c);
    ReplayedRecord(cfg, states, events, n, k);
    hide IsRun;
    hide RunCall;
    hide Valid;
    hide CanReplay;
    hide Passed;
    var id, t := r.outcome.id, states[n + 1];
    ReplayKeepsRecs(r.trail[k], id, c.rest);
    if i < |t.recs[id].outs| && t.recs[id].outs[i].Tracked? {
      ReplayedOutputsLive(r.trail[k], id, c.rest, c.inputs, i);
      hide Replay;
      PendingFrame(r.trail[k + 1], t);
    }
  }

  lemma ReplayKeepsRecs(s: State, id: GraphId, rest: Heap)
    requires id in s.recs && Replayable(s, id)
    ensures Replay(s, id, rest).recs == s.recs
  {
  }

  lemma PendingFrame(s: State, t: State)
    requires SameButPending(s, t)
    ensures t.recs == s.recs && t.heap == s.heap && t.slots == s.slots && CurPath(t) == CurPath(s)
  {
  }

  // ---------------------------------------------------------------- when a path is dropped

  /** The event is a call of a function in this mode that did not raise. */
  ghost predicate Returns(cfg: Config, s: State, e: Event, mode: Mode) {
    e.Invoke? && InfoOf(cfg, e.call.fn).mode == mode && !RunCall(cfg, s, e.call).outcome.Failed?
  }

  /** The event ends the wait for a backward. */
  ghost predicate EndsWait(cfg: Config, s: State, e: Event) {
    e.RunningBackward? || Returns(cfg, s, e, Backward)
  }

  lemma WaitStep(cfg: Config, states: seq<State>, events: seq<Event>, n: nat)
    requires IsRun(cfg, states, events) && n < |events|
    ensures states[n + 1].pendingBackward ==
            if Returns(cfg, states[n], events[n], Forward) then true
            else if EndsWait(cfg, states[n], events[n]) then false else states[n].pendingBackward
  {
    EventEffects(cfg, states, events, n);
    hide IsRun;
    hide RunCall;
    hide Effects;
    hide EndsAs;
    hide NoNodeAdded;
    hide InfoOf;
  }

  /** A forward call waits for its backward until a backward call or the notice of one. */
  lemma {:induction false} ForwardWaits(cfg: Config, states: seq<State>, events: seq<Event>, m: nat, n: nat)
    requires IsRun(cfg, states, events) && m < n <= |events| && Returns(cfg, states[m], events[m], Forward)
    requires forall j :: m < j < n ==> !EndsWait(cfg, states[j], events[j])
    ensures states[n].pendingBackward
    decreases n - m
  {
    hide IsRun;
    hide RunCall;
    hide Returns;
    hide EndsWait;
    IsRunLengths(cfg, states, events);
    WaitStep(cfg, states, events, n - 1);
    if m < n - 1 {
      ForwardWaits(cfg, states, events, m, n - 1);
    }
  }

  /** The other way round: if a forward waits, some forward call returned and nothing has ended
      its wait. */
  lemma {:induction false} WaitHasForward(cfg: Config, states: seq<State>, events: seq<Event>, n: nat) returns (m: nat)
    requires IsRun(cfg, states, events) && n <= |events| && states[n].pendingBackward
    ensures m < n && Returns(cfg, states[m], events[m], Forward)
    ensures forall j :: m < j < n ==> !EndsWait(cfg, states[j], events[j])
  {
    m := 0;
    InitialWaitsForNothing(cfg, states, events);
    hide IsRun;
    hide Returns;
    hide EndsWait;
    if n > 0 {
      WaitStep(cfg, states, events, n - 1);
      if Returns(cfg, states[n - 1], events[n - 1], Forward) {
        m := n - 1;
      } else {
        m := WaitHasForward(cfg, states, events, n - 1);
      }
    }
  }

  lemma InitialWaitsForNothing(cfg: Config, states: seq<State>, events: seq<Event>)
    requires IsRun(cfg, states, events)
    ensures |states| == |events| + 1 && !states[0].pendingBackward
  {
  }

  /** The event extends the path by a node. */
  ghost predicate ExtendsPath(cfg: Config, s: State, e: Event) {
    e.Invoke? && var o := RunCall(cfg, s, e.call).outcome; o.Recorded? || o.Replayed? || o.WarmedUp?
  }

  /** The generation noted is that of the last call that extended the path. */
  lemma {:induction false} GenerationNoted(cfg: Config, states: seq<State>, events: seq<Event>, m: nat, n: nat)
    requires IsRun(cfg, states, events) && m < n <= |events| && ExtendsPath(cfg, states[m], events[m])
    requires forall j :: m < j < n ==> !ExtendsPath(cfg, states[j], events[j])
    ensures states[n].currentGen == CurrGeneration(states[m])
    decreases n - m
  {
    hide IsRun;
    hide RunCall;
    hide ExtendsPath;
    hide CurrGeneration;
    IsRunLengths(cfg, states, events);
    GenerationStep(cfg, states, events, n - 1);
    if m < n - 1 {
      GenerationNoted(cfg, states, events, m, n - 1);
    }
  }

  lemma GenerationStep(cfg: Config, states: seq<State>, events: seq<Event>, n: nat)
    requires IsRun(cfg, states, events) && n < |events|
    ensures states[n + 1].currentGen ==
            if ExtendsPath(cfg, states[n], events[n]) then CurrGeneration(states[n]) else states[n].currentGen
  {
    EventEffects(cfg, states, events, n);
    hide IsRun;
    hide RunCall;
    hide DropsFirst;
    hide NodeAdded;
    hide NoNodeAdded;
    hide CurrGeneration;
    hide FlagAfter;
  }

  /** Within the call of event `n`, the step at `k` drops the path. */
  ghost predicate DropsAt(cfg: Config, states: seq<State>, events: seq<Event>, n: nat, k: nat) {
    && n < |events| < |states| && events[n].Invoke?
    && var trail := RunCall(cfg, states[n], events[n].call).trail;
       k + 1 < |trail| && trail[k].current.Some? && trail[k + 1].current.None?
  }

  /** In every run, a path that still has a live output is dropped only if the generation is not
      the one noted and either steps are marked or no forward waits. */
  lemma RunDropsLate(cfg: Config, states: seq<State>, events: seq<Event>, n: nat, k: nat)
    requires IsRun(cfg, states, events) && DropsAt(cfg, states, events, n, k)
    ensures var u := RunCall(cfg, states[n], events[n].call).trail[k];
            || NoneLive(u.heap, u.slots, CurPath(u))
            || (states[n].currentGen != CurrGeneration(states[n]) && (states[n].markStep != 0 || !states[n].pendingBackward))
  {
    RunMovesPathsLegally(cfg, states, events, n);
    EventEffects(cfg, states, events, n);
    var trail := RunCall(cfg, states[n], events[n].call).trail;
    DropIsAbandon(states[n], trail, k);
    hide IsRun;
    hide RunCall;
    hide NoneLive;
    hide EndsAs;
  }

  lemma DropIsAbandon(s: State, trail: seq<State>, k: nat)
    requires TrailOk(trail) && DropsFirst(s, trail) && k + 1 < |trail| && trail[k].current.Some? && trail[k + 1].current.None?
    ensures Same(s, trail[k]) && PathAbandoned(trail[k], trail[k + 1])
  {
    hide Valid;
    hide Same;
    hide NoneLive;
    assert LegalStep(trail[k], trail[k + 1]);
  }

  /** In every run with no step marked, between a forward call and the backward call (or the
      notice of it) no path with a live output is dropped. */
  lemma RunKeepsForWaiting(cfg: Config, states: seq<State>, events: seq<Event>, m: nat, n: nat, k: nat)
    requires IsRun(cfg, states, events) && m < n && DropsAt(cfg, states, events, n, k) && states[n].markStep == 0
    requires Returns(cfg, states[m], events[m], Forward) && forall j :: m < j < n ==> !EndsWait(cfg, states[j], events[j])
    ensures var u := RunCall(cfg, states[n], events[n].call).trail[k]; NoneLive(u.heap, u.slots, CurPath(u))
  {
    RunDropsLate(cfg, states, events, n, k);
    ForwardWaits(cfg, states, events, m, n);
    hide IsRun;
    hide RunCall;
    hide NoneLive;
  }

  /** In every run, no path with a live output is dropped in the generation of the call that
      extended it last. */
  lemma RunKeepsGenerationPath(cfg: Config, states: seq<State>, events: seq<Event>, m: nat, n: nat, k: nat)
    requires IsRun(cfg, states, events) && m < n && DropsAt(cfg, states, events, n, k)
    requires ExtendsPath(cfg, states[m], events[m]) && forall j :: m < j < n ==> !ExtendsPath(cfg, states[j], events[j])
    requires CurrGeneration(states[m]) == CurrGeneration(states[n])
    ensures var u := RunCall(cfg, states[n], events[n].call).trail[k]; NoneLive(u.heap, u.slots, CurPath(u))
  {
    RunDropsLate(cfg, states, events, n, k);
    GenerationNoted(cfg, states, events, m, n);
    hide IsRun;
    hide RunCall;
    hide NoneLive;
  }

  /** A path that is recorded or warmed up is ended by the next call exactly when its generation is
      over (and steps are marked or no forward waits) or nothing on it is live. */
  lemma SettleEndsIff(s: State)
    requires Sound(s) && s.pathState in {Recording, WarmingUp}
    ensures Settle(s).current.None? <==>
            (s.currentGen != CurrGeneration(s) && (s.markStep != 0 || !s.pendingBackward)) || NoneLive(s.heap, s.slots, CurPath(s))
  {
    StateNamesNode(s);
    FastLivenessIsExact(s);
    hide Sound;
    hide AllOutputsAreDead;
    hide DeallocPath;
    hide NoneLive;
  }

  /** So is a replayed path when it is asked to end. */
  lemma ExecutionEndsIff(s: State)
    requires Sound(s) && s.pathState == Executing
    ensures TryEndExecution(s).current.None? <==>
            (s.currentGen != CurrGeneration(s) && (s.markStep != 0 || !s.pendingBackward)) || NoneLive(s.heap, s.slots, CurPath(s))
  {
    StateNamesNode(s);
    FastLivenessIsExact(s);
    hide Sound;
    hide AllOutputsAreDead;
    hide NoneLive;
  }

  // ---------------------------------------------------------------- warming up before recording

  lemma AfterProbeIsNoWarmup(cfg: Config, s: State, c: Call, unexpected: bool, trail: seq<State>)
    ensures !AfterProbe(cfg, s, c, unexpected, trail).outcome.WarmedUp?
  {
    hide TryEndExecution;
    hide MutatesForeignInput;
    hide ExceedsLimit;
  }

  /** Once past the test for a warmup, a call does not warm up. */
  lemma ProbeIsNoWarmup(cfg: Config, q: State, c: Call, trail: seq<State>)
    requires (c.fn in q.warmedUp || cfg.skipWarmup) && !cfg.forceWarmup
    ensures !ProbeChildren(cfg, q, c, trail).outcome.WarmedUp?
    decreases Rank(q), 0
  {
    hide ProbeFrom;
    hide AfterProbe;
    hide TryEndExecution;
    hide RunCall;
    hide ReleaseInputs;
    hide StaticsStable;
    hide AliasedPriorsLive;
    var t := TouchChildren(q, HereFor(q, c.fn));
    var p := ProbeFrom(cfg, t, ChildrenAt(q.children, HereFor(q, c.fn)), c, 0, false);
    if p.NoMatch? {
      var u := TryEndExecution(t);
      AfterProbeIsNoWarmup(cfg, t, c, p.unexpected, trail + [t]);
      AfterProbeIsNoWarmup(cfg, u, c, p.unexpected, trail + [t, u]);
      if t.current.Some? && u.current.None? {
        EndExecutionSame(t);
        EndedIsIdle(t);
        CallWarmsUpOnlyIf(cfg, u, c);
      }
    }
  }

  lemma EndedIsIdle(t: State)
    requires t.current.Some? && TryEndExecution(t).current.None?
    ensures Settle(TryEndExecution(t)) == TryEndExecution(t) && TryEndExecution(t).pathState == NoPath
  {
    hide AllOutputsAreDead;
    hide CanStartNewGeneration;
  }

  /** A call warms its function up only if that was never done (and is wanted), behind another
      warmup, or if warmups are forced. */
  lemma CallWarmsUpOnlyIf(cfg: Config, s: State, c: Call)
    ensures RunCall(cfg, s, c).outcome.WarmedUp? ==>
              (c.fn !in s.warmedUp && !cfg.skipWarmup) || Settle(s).pathState == WarmingUp || cfg.forceWarmup
    decreases Rank(s), 1
  {
    hide Settle;
    hide EnsureHint;
    hide ProbeChildren;
    hide Finish;
    hide HintAt;
    hide ExceedsLimit;
    var q := EnsureHint(cfg, Settle(s), c.fn, c.inputs);
    SettleSame(s);
    HintSame(cfg, Settle(s), c.fn, c.inputs);
    HintKeepsPath(cfg, Settle(s), c.fn, c.inputs);
    assert q.warmedUp == s.warmedUp;
    hide Same;
    if (c.fn in q.warmedUp || cfg.skipWarmup) && q.pathState != WarmingUp && !cfg.forceWarmup {
      ProbeIsNoWarmup(cfg, q, c, [s, Settle(s), q]);
      BodyIsNoWarmup(cfg, s, c);
      hide RunBody;
    }
  }

  lemma BodyIsNoWarmup(cfg: Config, s: State, c: Call)
    requires var q := EnsureHint(cfg, Settle(s), c.fn, c.inputs);
             !NeedsWarmup(cfg, q, c.fn) && !ProbeChildren(cfg, q, c, [s, Settle(s), q]).outcome.WarmedUp?
    ensures !RunBody(cfg, s, c).outcome.WarmedUp?
  {
    hide Settle;
    hide EnsureHint;
    hide ProbeChildren;
    hide HintAt;
    hide ExceedsLimit;
    hide NeedsWarmup;
    hide WarmupResult;
  }

  lemma HintKeepsPath(cfg: Config, s: State, fn: FunctionId, inputs: seq<Input>)
    ensures EnsureHint(cfg, s, fn, inputs).pathState == s.pathState
  {
    hide MutatesForeignInput;
  }

  lemma WarmedStep(cfg: Config, states: seq<State>, events: seq<Event>, n: nat)
    requires IsRun(cfg, states, events) && n < |events|
    ensures states[n + 1].warmedUp == states[n].warmedUp +
            if events[n].Invoke? && RunCall(cfg, states[n], events[n].call).outcome.WarmedUp? then {events[n].call.fn} else {}
  {
    EventEffects(cfg, states, events, n);
    hide IsRun;
    hide RunCall;
    hide DropsFirst;
    hide NodeAdded;
    hide NoNodeAdded;
    hide CurrGeneration;
    hide FlagAfter;
  }

  /** In every run, a function was warmed up by a call before the state lists it. */
  lemma {:induction false} RunWarmer(cfg: Config, states: seq<State>, events: seq<Event>, n: nat, fn: FunctionId) returns (m: nat)
    requires IsRun(cfg, states, events) && n < |states| && fn in states[n].warmedUp
    ensures m < n && events[m].Invoke? && events[m].call.fn == fn && RunCall(cfg, states[m], events[m].call).outcome.WarmedUp?
  {
    hide IsRun;
    hide RunCall;
    m := 0;
    IsRunLengths(cfg, states, events);
    InitialHasNoNodes(cfg, states, events);
    if n > 0 {
      WarmedStep(cfg, states, events, n - 1);
      if fn in states[n - 1].warmedUp {
        m := RunWarmer(cfg, states, events, n - 1, fn);
      } else {
        m := n - 1;
      }
    }
  }

  // ---------------------------------------------------------------- children

  /** The node behind which a node was recorded. */
  function ParentOf(r: GraphRecord): Option<GraphId> {
    if |r.path| >= 2 then Some(r.path[|r.path| - 2]) else None
  }

  ghost predicate Rising(ids: seq<GraphId>) {
    forall i, j :: 0 <= i < j < |ids| ==> ids[i] < ids[j]
  }

  /** Every node is listed among the children of its parent, under its function, in the order of
      recording. */
  ghost predicate AllListed(s: State) {
    EachListed(s) && EachRising(s)
  }

  ghost predicate EachListed(s: State) {
    forall id :: id in s.recs ==> id in ChildrenAt(s.children, Site(ParentOf(s.recs[id]), s.recs[id].fn))
  }

  ghost predicate EachRising(s: State) {
    forall k: Site :: Rising(ChildrenAt(s.children, k))
  }

  /** No list has an id that is yet to be given. */
  ghost predicate EachBelow(s: State) {
    forall k: Site, j: nat :: j < |ChildrenAt(s.children, k)| ==> ChildrenAt(s.children, k)[j] < s.nextGraph
  }

  lemma NoneAddedListed(s: State, t: State)
    requires AllListed(s) && NoNodeAdded(s, t)
    ensures AllListed(t)
  {
    hide ParentOf;
    hide Rising;
    hide ChildrenAt;
  }

  lemma AddedListed(cfg: Config, s: State, t: State, u: State, id: GraphId, c: Call)
    requires AllListed(s) && NodeAdded(cfg, s, t, u, id, c) && Sound(s) && Sound(t)
    ensures AllListed(t)
  {
    NewChild(cfg, s, t, u, id, c);
    ListedBelow(s);
    AddedShape(cfg, s, t, u, id, c);
    hide Sound;
    hide NodeAdded;
    hide EachListed;
    hide EachRising;
    hide EachBelow;
    hide ListGrown;
    hide ParentOf;
    ListsGrow(s, t, Site(u.current, c.fn), id);
    RisingGrows(s, t, Site(u.current, c.fn), id);
  }

  /** One list is longer by the new node. */
  ghost predicate ListGrown(s: State, t: State, site: Site, id: GraphId) {
    forall k: Site :: ChildrenAt(t.children, k) ==
      if k == site then ChildrenAt(s.children, k) + [id] else ChildrenAt(s.children, k)
  }

  lemma ListsGrow(s: State, t: State, site: Site, id: GraphId)
    requires ListGrown(s, t, site, id) && id in t.recs && t.recs == s.recs[id := t.recs[id]]
    requires site == Site(ParentOf(t.recs[id]), t.recs[id].fn)
    requires EachListed(s)
    ensures EachListed(t)
  {
    hide ChildrenAt;
    hide ParentOf;
    forall jd | jd in t.recs
      ensures jd in ChildrenAt(t.children, Site(ParentOf(t.recs[jd]), t.recs[jd].fn))
    {
      var k := Site(ParentOf(t.recs[jd]), t.recs[jd].fn);
      if jd == id {
        assert ChildrenAt(t.children, k) == ChildrenAt(s.children, k) + [id];
      } else {
        assert jd in s.recs && t.recs[jd] == s.recs[jd];
        assert jd in ChildrenAt(s.children, k);
      }
    }
  }

  lemma RisingGrows(s: State, t: State, site: Site, id: GraphId)
    requires ListGrown(s, t, site, id) && EachRising(s) && EachBelow(s) && id == s.nextGraph
    ensures EachRising(t)
  {
    hide ChildrenAt;
    hide Rising;
    forall k: Site
      ensures Rising(ChildrenAt(t.children, k))
    {
      assert Rising(ChildrenAt(s.children, k));
      if k == site {
        RisingNext(ChildrenAt(s.children, k), id);
      }
    }
  }

  lemma RisingNext(ids: seq<GraphId>, id: GraphId)
    requires Rising(ids) && forall j :: 0 <= j < |ids| ==> ids[j] < id
    ensures Rising(ids + [id])
  {
  }

  lemma AddedShape(cfg: Config, s: State, t: State, u: State, id: GraphId, c: Call)
    requires NodeAdded(cfg, s, t, u, id, c)
    ensures id == s.nextGraph && id in t.recs && t.recs == s.recs[id := t.recs[id]]
    ensures ListGrown(s, t, Site(u.current, c.fn), id)
  {
    hide Same;
    hide NewRecord;
    hide MarkAliased;
    hide OwnFlags;
    hide RecordedOuts;
    hide CurPath;
  }

  lemma ListedBelow(s: State)
    requires Sound(s)
    ensures EachBelow(s)
  {
    forall k: Site, j: nat | j < |ChildrenAt(s.children, k)|
      ensures ChildrenAt(s.children, k)[j] < s.nextGraph
    {
      assert ChildrenOk(s) && IdsOk(s);
      assert k in s.children && s.children[k][j] in s.recs;
    }
  }

  /** The new node's parent is the node that was current when it was recorded. */
  lemma NewChild(cfg: Config, s: State, t: State, u: State, id: GraphId, c: Call)
    requires NodeAdded(cfg, s, t, u, id, c) && Sound(s) && Sound(t)
    ensures id in t.recs && t.recs[id].fn == c.fn && ParentOf(t.recs[id]) == u.current
    ensures id !in s.recs
  {
    AddedShape(cfg, s, t, u, id, c);
    NextIsNew(s);
    SoundChildren(t);
    hide Sound;
    hide NodeAdded;
    hide ParentOf;
    var site := Site(u.current, c.fn);
    assert ChildrenAt(t.children, site) == ChildrenAt(s.children, site) + [id];
    hide ListGrown;
    ListedUnderParent(t.recs, t.children, site, id);
  }

  lemma NextIsNew(s: State)
    requires Sound(s)
    ensures s.nextGraph !in s.recs
  {
  }

  lemma SoundChildren(s: State)
    requires Sound(s)
    ensures ChildrenIn(s.recs, s.children) && RecordsOk(s.recs)
  {
  }

  lemma ListedUnderParent(recs: map<GraphId, GraphRecord>, children: map<Site, seq<GraphId>>, site: Site, id: GraphId)
    requires ChildrenIn(recs, children) && RecordsOk(recs) && id in ChildrenAt(children, site)
    ensures id in recs && recs[id].fn == site.fn && ParentOf(recs[id]) == site.node
  {
    var j: nat :| j < |children[site]| && children[site][j] == id;
    if site.node.Some? {
      assert RecordOk(recs, site.node.value);
    }
  }

  /** In every run every recorded node is listed as a child of its parent, in recording order; with
      `FirstMatchWins` no node is forgotten when children are probed. */
  lemma {:induction false} RunListsChildren(cfg: Config, states: seq<State>, events: seq<Event>, n: nat)
    requires IsRun(cfg, states, events) && n < |states|
    ensures AllListed(states[n])
  {
    hide IsRun;
    hide RunCall;
    hide Valid;
    hide NodeStep;
    hide AllListed;
    IsRunLengths(cfg, states, events);
    InitialTables(cfg, states, events);
    if n > 0 {
      RunListsChildren(cfg, states, events, n - 1);
      RunIsValid(cfg, states, events, n - 1);
      RunIsValid(cfg, states, events, n);
      NodesStep(cfg, states, events, n - 1);
      ListsStep(cfg, states[n - 1], events[n - 1], states[n]);
    }
  }

  // ---------------------------------------------------------------- cached outputs

  /** Output `i` of node `id` is aliased by a later output of the node or by an output of a node
      recorded behind it. */
  ghost predicate AliasedBy(recs: map<GraphId, GraphRecord>, id: GraphId, i: nat, jd: GraphId, j: nat) {
    && jd in recs && j < |recs[jd].outs| && recs[jd].outs[j].Tracked?
    && match recs[jd].outs[j].alias
       case Unaliased => false
       case NewOutput(p) => jd == id && p == i
       case PriorOutput(p) => p.depth < |recs[jd].path| && recs[jd].path[p.depth] == id && p.output == i
  }

  ghost predicate Aliased(recs: map<GraphId, GraphRecord>, id: GraphId, i: nat) {
    exists jd, j: nat :: AliasedBy(recs, id, i, jd, j)
  }

  /** An output may be cached exactly if it introduced its address and no output anywhere aliases it. */
  ghost predicate FlagExact(s: State, id: GraphId, i: nat)
    requires id in s.recs && i < |s.recs[id].outs|
  {
    FlagAt(s.unaliased, id, i) <==>
    s.recs[id].outs[i].Tracked? && s.recs[id].outs[i].alias.Unaliased? && !Aliased(s.recs, id, i)
  }

  ghost predicate FlagsExact(s: State) {
    forall id, i: nat :: id in s.recs && i < |s.recs[id].outs| ==> FlagExact(s, id, i)
  }

  /** Recording a node lowers exactly the flags of the outputs it aliases. */
  lemma AddedFlags(cfg: Config, s: State, t: State, u: State, id: GraphId, c: Call)
    requires FlagsExact(s) && NodeAdded(cfg, s, t, u, id, c) && Sound(s) && Sound(t)
    ensures FlagsExact(t)
  {
    hide Sound;
    hide NodeAdded;
    hide ListGrown;
    hide MarkAliased;
    hide OwnFlags;
    hide FlagExact;
    hide CurPath;
    AddedShape(cfg, s, t, u, id, c);
    NextIsNew(s);
    AddedOuts(cfg, s, t, u, id, c);
    FlagsHaveNodes(s);
    NewAliases(t, id);
    OldPaths(s, t, id);
    var path := CurPath(u);
    assert forall d :: 0 <= d < |path| ==> t.recs[id].path[d] == path[d];
    forall jd, i: nat | jd in t.recs && i < |t.recs[jd].outs|
      ensures FlagExact(t, jd, i)
    {
      if jd == id {
        NewFlag(s, t, id, i, path);
      } else {
        OldFlag(s, t, id, jd, i, path);
      }
    }
  }

  /** What the recording left of outputs, path and flags. */
  lemma AddedOuts(cfg: Config, s: State, t: State, u: State, id: GraphId, c: Call)
    requires NodeAdded(cfg, s, t, u, id, c)
    ensures id in t.recs && t.recs[id].path == CurPath(u) + [id]
    ensures t.unaliased == MarkAliased(s.unaliased, CurPath(u), t.recs[id].outs)[id := OwnFlags(t.recs[id].outs)]
  {
    hide ChildrenAt;
    hide CurPath;
    hide RecordedOuts;
    hide RecordedAfter;
    hide RecordedPool;
    hide MarkAliased;
    hide OwnFlags;
  }

  lemma FlagsHaveNodes(s: State)
    requires Sound(s)
    ensures forall id :: id in s.recs ==> id in s.unaliased && |s.unaliased[id]| == |s.recs[id].outs|
  {
    forall id | id in s.recs
      ensures id in s.unaliased && |s.unaliased[id]| == |s.recs[id].outs|
    {
      assert NodeOk(s, id);
    }
  }

  /** Outputs of a node that alias earlier nodes point to proper ancestors. */
  lemma NewAliases(t: State, id: GraphId)
    requires Sound(t) && id in t.recs
    ensures |t.recs[id].path| > 0 && t.recs[id].path[|t.recs[id].path| - 1] == id
    ensures forall j: nat :: j < |t.recs[id].outs| && t.recs[id].outs[j].Tracked? && t.recs[id].outs[j].alias.PriorOutput? ==>
              t.recs[id].outs[j].alias.index.depth < |t.recs[id].path| - 1
    ensures forall d :: 0 <= d < |t.recs[id].path| - 1 ==> t.recs[id].path[d] != id
  {
    assert RecordOk(t.recs, id);
    forall j: nat | j < |t.recs[id].outs| && t.recs[id].outs[j].Tracked? && t.recs[id].outs[j].alias.PriorOutput?
      ensures t.recs[id].outs[j].alias.index.depth < |t.recs[id].path| - 1
    {
      assert AliasOk(t.recs, id, j);
    }
    forall d | 0 <= d < |t.recs[id].path| - 1
      ensures t.recs[id].path[d] != id
    {
      assert |t.recs[t.recs[id].path[d]].path| == d + 1;
    }
  }

  /** No older node has the new one on its path. */
  lemma OldPaths(s: State, t: State, id: GraphId)
    requires Sound(s) && id !in s.recs
    ensures forall jd :: jd in s.recs ==> id !in s.recs[jd].path
  {
    forall jd | jd in s.recs
      ensures id !in s.recs[jd].path
    {
      assert RecordOk(s.recs, jd);
    }
  }

  lemma NewFlag(s: State, t: State, id: GraphId, i: nat, path: seq<GraphId>)
    requires id in t.recs && id !in s.recs && t.recs == s.recs[id := t.recs[id]] && i < |t.recs[id].outs|
    requires id in t.unaliased && t.unaliased[id] == OwnFlags(t.recs[id].outs) && t.recs[id].path == path + [id]
    requires forall d :: 0 <= d < |path| ==> path[d] != id
    requires forall j: nat :: j < |t.recs[id].outs| && t.recs[id].outs[j].Tracked? && t.recs[id].outs[j].alias.PriorOutput? ==>
               t.recs[id].outs[j].alias.index.depth < |path|
    requires forall jd :: jd in s.recs ==> id !in s.recs[jd].path
    ensures FlagExact(t, id, i)
  {
    var outs := t.recs[id].outs;
    forall jd | jd in t.recs && jd != id
      ensures id !in t.recs[jd].path
    {
      assert jd in s.recs && t.recs[jd] == s.recs[jd];
    }
    forall jd, j: nat | AliasedBy(t.recs, id, i, jd, j)
      ensures jd == id && outs[j].alias == NewOutput(i)
    {
    }
    if exists j :: 0 <= j < |outs| && outs[j].Tracked? && outs[j].alias == NewOutput(i) {
      var j :| 0 <= j < |outs| && outs[j].Tracked? && outs[j].alias == NewOutput(i);
      assert AliasedBy(t.recs, id, i, id, j);
    }
  }

  lemma OldFlag(s: State, t: State, id: GraphId, jd: GraphId, i: nat, path: seq<GraphId>)
    requires FlagsExact(s) && id in t.recs && id !in s.recs && t.recs == s.recs[id := t.recs[id]]
    requires jd in s.recs && i < |s.recs[jd].outs| && jd in s.unaliased && |s.unaliased[jd]| == |s.recs[jd].outs|
    requires t.unaliased == MarkAliased(s.unaliased, path, t.recs[id].outs)[id := OwnFlags(t.recs[id].outs)] && t.recs[id].path == path + [id]
    ensures FlagExact(t, jd, i)
  {
    var outs := t.recs[id].outs;
    assert FlagExact(s, jd, i);
    assert FlagAt(t.unaliased, jd, i) <==> FlagAt(s.unaliased, jd, i) && !AliasesPrior(path, outs, jd, i);
    if AliasesPrior(path, outs, jd, i) {
      var j :| 0 <= j < |outs| && outs[j].Tracked? && outs[j].alias.PriorOutput? &&
        outs[j].alias.index.depth < |path| && path[outs[j].alias.index.depth] == jd && outs[j].alias.index.output == i;
      assert AliasedBy(t.recs, jd, i, id, j);
    }
    if Aliased(s.recs, jd, i) {
      var kd, k: nat :| AliasedBy(s.recs, jd, i, kd, k);
      assert AliasedBy(t.recs, jd, i, kd, k);
    }
    if Aliased(t.recs, jd, i) {
      var kd, k: nat :| AliasedBy(t.recs, jd, i, kd, k);
      if kd == id {
        assert AliasesPrior(path, outs, jd, i);
      } else {
        assert AliasedBy(s.recs, jd, i, kd, k);
      }
    }
    hide FlagsExact;
  }

  lemma NoneAddedFlags(s: State, t: State)
    requires FlagsExact(s) && NoNodeAdded(s, t)
    ensures FlagsExact(t)
  {
    hide Aliased;
    hide ChildrenAt;
    forall id, i: nat | id in t.recs && i < |t.recs[id].outs|
      ensures FlagExact(t, id, i)
    {
      assert FlagExact(s, id, i);
    }
  }

  /** In every run an output may be cached exactly if no recorded output aliases it. */
  lemma {:induction false} RunKeepsFlagsExact(cfg: Config, states: seq<State>, events: seq<Event>, n: nat)
    requires IsRun(cfg, states, events) && n < |states|
    ensures FlagsExact(states[n])
  {
    hide IsRun;
    hide RunCall;
    hide Valid;
    hide NodeStep;
    hide FlagsExact;
    IsRunLengths(cfg, states, events);
    InitialTables(cfg, states, events);
    if n > 0 {
      RunKeepsFlagsExact(cfg, states, events, n - 1);
      RunIsValid(cfg, states, events, n - 1);
      RunIsValid(cfg, states, events, n);
      NodesStep(cfg, states, events, n - 1);
      FlagsStep(cfg, states[n - 1], events[n - 1], states[n]);
    }
  }

  lemma InitialTables(cfg: Config, states: seq<State>, events: seq<Event>)
    requires IsRun(cfg, states, events)
    ensures AllListed(states[0]) && FlagsExact(states[0])
  {
    InitialHasNoNodes(cfg, states, events);
  }

  /** What an event makes of nodes. */
  ghost predicate NodeStep(cfg: Config, s: State, e: Event, t: State) {
    if e.Invoke? && RunCall(cfg, s, e.call).outcome.Recorded? then
      var r := RunCall(cfg, s, e.call);
      r.ranIn.Some? && NodeAdded(cfg, s, t, r.ranIn.value, r.outcome.id, e.call)
    else NoNodeAdded(s, t)
  }

  lemma NodesStep(cfg: Config, states: seq<State>, events: seq<Event>, n: nat)
    requires IsRun(cfg, states, events) && n < |events|
    ensures NodeStep(cfg, states[n], events[n], states[n + 1])
  {
    hide IsRun;
    hide RunCall;
    hide Effects;
    hide NodeAdded;
    hide NoNodeAdded;
    hide CurrGeneration;
    hide FlagAfter;
    EventEffects(cfg, states, events, n);
  }

  lemma FlagsStep(cfg: Config, s: State, e: Event, t: State)
    requires FlagsExact(s) && Valid(s) && Valid(t) && NodeStep(cfg, s, e, t)
    ensures FlagsExact(t)
  {
    hide RunCall;
    hide Sound;
    hide PoolOk;
    hide FlagsExact;
    hide NodeAdded;
    hide NoNodeAdded;
    if e.Invoke? && RunCall(cfg, s, e.call).outcome.Recorded? {
      var r := RunCall(cfg, s, e.call);
      AddedFlags(cfg, s, t, r.ranIn.value, r.outcome.id, e.call);
    } else {
      NoneAddedFlags(s, t);
    }
  }

  lemma ListsStep(cfg: Config, s: State, e: Event, t: State)
    requires AllListed(s) && Valid(s) && Valid(t) && NodeStep(cfg, s, e, t)
    ensures AllListed(t)
  {
    hide RunCall;
    hide Sound;
    hide PoolOk;
    hide AllListed;
    hide NodeAdded;
    hide NoNodeAdded;
    if e.Invoke? && RunCall(cfg, s, e.call).outcome.Recorded? {
      var r := RunCall(cfg, s, e.call);
      AddedListed(cfg, s, t, r.ranIn.value, r.outcome.id, e.call);
    } else {
      NoneAddedListed(s, t);
    }
  }

  // ---------------------------------------------------------------- refusals by address

  /** In every run, whether a node is refused for a pointer is a matter of the addresses in the call
      that recorded it and the addresses now. */
  lemma RunRefusesByAddress(cfg: Config, states: seq<State>, events: seq<Event>, n: nat, id: GraphId, now: seq<Input>) returns (m: nat)
    requires IsRun(cfg, states, events) && n < |states| && id in states[n].recs
    ensures m < n && events[m].Invoke? && RecordedBy(cfg, states[m], events[m].call, id, states[n].recs[id])
    ensures var u, first := RunCall(cfg, states[m], events[m].call).ranIn.value, events[m].call;
            var r := states[n].recs[id];
            && (ManagedElsewhere(r, now) <==> ManagedMoved(u, first.inputs, now))
            && (StaticElsewhere(r, now) <==>
                  ManagedMoved(u, first.inputs, now) || StaticMoved(InfoOf(cfg, first.fn).statics, first.inputs, now))
  {
    m := RunRecorder(cfg, states, events, n, id);
    var u, first := RunCall(cfg, states[m], events[m].call).ranIn.value, events[m].call;
    RecordedPointers(u, first.fn, InfoOf(cfg, first.fn).statics, first.inputs, first.run, now);
    ElsewhereIff(states[n].recs[id], now);
    hide IsRun;
    hide RunCall;
    hide NewRecord;
    hide PtrsEqual;
    hide ManagedElsewhere;
    hide StaticElsewhere;
    hide ManagedMoved;
    hide StaticMoved;
    hide Same;
  }

  // ---------------------------------------------------------------- generations

  lemma {:induction false} RunMarksFall(cfg: Config, states: seq<State>, events: seq<Event>, n: nat)
    requires IsRun(cfg, states, events) && n < |states|
    ensures states[n].markStep <= 0
  {
    IsRunLengths(cfg, states, events);
    if n > 0 {
      RunMarksFall(cfg, states, events, n - 1);
      MarkStepOf(cfg, states, events, n - 1);
      hide IsRun;
    }
  }

  lemma MarkStepOf(cfg: Config, states: seq<State>, events: seq<Event>, n: nat)
    requires IsRun(cfg, states, events) && n < |events|
    ensures states[n + 1].markStep == if events[n].MarkStepBegin? then states[n].markStep - 1 else states[n].markStep
    ensures states[n + 1].generation == if events[n].NewInvocation? then events[n].generation else states[n].generation
  {
    assert Follow(cfg, states[n], events[n], states[n + 1]);
    EventEffects(cfg, states, events, n);
    hide IsRun;
    hide RunCall;
    hide Effects;
    hide NoNodeAdded;
    hide NodeAdded;
    hide FreeDead;
    hide CurrGeneration;
    hide FlagAfter;
  }

  /** Marking a step always begins a new generation; a new invocation begins one exactly if no step
      was ever marked and its number is another. Compilation numbers are not negative. */
  lemma RunGenerations(cfg: Config, states: seq<State>, events: seq<Event>, n: nat)
    requires IsRun(cfg, states, events) && n < |events| && states[n].generation >= 0
    ensures events[n].MarkStepBegin? ==> CurrGeneration(states[n + 1]) != CurrGeneration(states[n])
    ensures events[n].NewInvocation? ==>
              (CurrGeneration(states[n + 1]) != CurrGeneration(states[n]) <==>
                 states[n].markStep == 0 && events[n].generation != states[n].generation)
    ensures !events[n].MarkStepBegin? && !events[n].NewInvocation? ==> CurrGeneration(states[n + 1]) == CurrGeneration(states[n])
  {
    RunMarksFall(cfg, states, events, n);
    MarkStepOf(cfg, states, events, n);
    hide IsRun;
  }
}
