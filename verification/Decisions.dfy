/**
 What decides a call, seen over calls: a foreign mutation once noted is never forgotten,
 nothing is recorded behind a path that could have been ended, and a function that is
 recorded or replayed needed no warmup.
 */
module Decisions {
  import opened Options
  import opened Storages
  import opened TreeState
  import opened PathOps
  import opened Checkpoints
  import opened Recordings
  import opened Replays
  import opened Warmups
  import opened Calls
  import opened CallProofs
  import opened CallEffects
  import opened Runs
  import opened RunHistory

  /** Foreign mutations noted in `s` are noted in `t`. */
  ghost predicate NotedStill(s: State, t: State) {
    forall k: Site :: HintAt(s, k) ==> HintAt(t, k)
  }

  /** The path could be ended. */
  predicate Endable(s: State) {
    s.current.Some? && (CanStartNewGeneration(s) || AllOutputsAreDead(s))
  }

  /** The function was recorded behind the path of `w`, one of the states of the call. */
  ghost predicate RecordedBehind(r: CallResult, w: State) {
    w in r.trail && r.ranIn == Some(if w.pathState == Executing then Checkpoint(w) else w)
  }

  /** A recording comes behind a path that cannot be ended. */
  ghost predicate BehindPath(r: CallResult) {
    r.outcome.Recorded? ==> exists w :: RecordedBehind(r, w) && !Endable(w)
  }

  predicate NoWarmupDue(cfg: Config, s: State, fn: FunctionId) {
    (fn in s.warmedUp || cfg.skipWarmup) && !cfg.forceWarmup
  }

  ghost predicate Decided(cfg: Config, s: State, r: CallResult, c: Call) {
    && |r.trail| > 0 && NotedStill(s, Last(r.trail))
    && BehindPath(r)
    && (r.outcome.Recorded? || r.outcome.Replayed? ==> NoWarmupDue(cfg, s, c.fn))
  }

  // ---------------------------------------------------------------- outcomes

  lemma EagerDecided(cfg: Config, s: State, q: State, c: Call, trail: seq<State>)
    requires NotedStill(s, q)
    ensures Decided(cfg, s, EagerResult(q, c, trail), c)
  {
    hide FreeDead;
  }

  lemma WarmupDecided(cfg: Config, s: State, q: State, c: Call, trail: seq<State>)
    requires NotedStill(s, q)
    ensures Decided(cfg, s, WarmupResult(q, c, trail), c)
  {
    CheckpointHints(q);
    hide Checkpoint;
    hide WarmupRow;
    hide AllocateRow;
    hide FreeDead;
  }

  lemma CheckpointHints(s: State)
    ensures Checkpoint(s).hints == s.hints
  {
    hide PathLiveWeakrefs;
    hide DeadAddresses;
  }

  lemma RecordDecided(cfg: Config, s: State, q: State, c: Call, charge: Option<Site>, trail: seq<State>)
    requires NotedStill(s, q) && q in trail && !Endable(q) && NoWarmupDue(cfg, s, c.fn)
    ensures Decided(cfg, s, RecordResult(cfg, q, c, charge, trail), c)
  {
    var r := RecordResult(cfg, q, c, charge, trail);
    CheckpointHints(q);
    RecordHints(if q.pathState == Executing then Checkpoint(q) else q, cfg, c);
    hide Checkpoint;
    hide Record;
    hide Endable;
    assert RecordedBehind(r, q);
    hide RecordedBehind;
  }

  lemma RecordHints(u: State, cfg: Config, c: Call)
    ensures Record(u, c.fn, InfoOf(cfg, c.fn).statics, c.inputs, c.run).hints == u.hints
  {
    hide NewRecord;
    hide RecordedOuts;
    hide RecordedSlots;
    hide RecordedPool;
    hide MarkAliased;
  }

  lemma ReplayDecided(cfg: Config, s: State, q: State, id: GraphId, c: Call, trail: seq<State>)
    requires NotedStill(s, q) && id in q.recs && |trail| > 0 && NotedStill(s, Last(trail)) && NoWarmupDue(cfg, s, c.fn)
    ensures Decided(cfg, s, ReplayResult(cfg, q, id, c, trail), c)
  {
    hide StaticsStable;
    hide AliasedPriorsLive;
    hide RebuildHeap;
    hide RebuiltRow;
    hide InitialCache;
    hide RowStorages;
    hide CachePlaces;
    hide NoWarmupDue;
  }

  // ---------------------------------------------------------------- whole calls

  /** Noting a site that has no foreign mutation forgets none. */
  lemma NotingKeeps(cfg: Config, s: State, fn: FunctionId, inputs: seq<Input>)
    requires !HintAt(s, HereFor(s, fn))
    ensures NotedStill(s, UpdateHint(cfg, s, fn, inputs))
  {
    hide MutatesForeignInput;
  }

  lemma EnsuringKeeps(cfg: Config, s: State, fn: FunctionId, inputs: seq<Input>)
    ensures NotedStill(s, EnsureHint(cfg, s, fn, inputs))
    ensures Endable(EnsureHint(cfg, s, fn, inputs)) <==> Endable(s)
    ensures EnsureHint(cfg, s, fn, inputs).warmedUp == s.warmedUp && EnsureHint(cfg, s, fn, inputs).pathState == s.pathState
  {
    hide MutatesForeignInput;
  }

  lemma EndingKeeps(s: State)
    ensures NotedStill(s, TryEndExecution(s)) && !Endable(TryEndExecution(s))
    ensures TryEndExecution(s).current.Some? ==> TryEndExecution(s) == s
    ensures TryEndExecution(s).warmedUp == s.warmedUp
  {
    hide AllOutputsAreDead;
    hide CanStartNewGeneration;
  }

  lemma SettlingKeeps(s: State)
    ensures NotedStill(s, Settle(s)) && Settle(s).warmedUp == s.warmedUp
    ensures Settle(s).pathState == Recording ==> !Endable(Settle(s))
  {
    SettledTables(s);
    if Settle(s).pathState == Recording {
      SettledStays(s);
    }
    hide Settle;
    hide Endable;
  }

  lemma SettledTables(s: State)
    ensures Settle(s).hints == s.hints && Settle(s).warmedUp == s.warmedUp
  {
    var d := DeallocPath(s);
    assert d.hints == s.hints && d.warmedUp == s.warmedUp;
    hide DeallocPath;
    hide AllOutputsAreDead;
    hide CanStartNewGeneration;
    assert EndPath(d).hints == s.hints && EndPath(d).warmedUp == s.warmedUp;
    assert EndPath(s).hints == s.hints && EndPath(s).warmedUp == s.warmedUp;
    hide EndPath;
  }

  /** A path that is still being recorded after settling could not be ended. */
  lemma SettledStays(s: State)
    requires Settle(s).pathState == Recording
    ensures !Endable(Settle(s))
  {
    hide AllOutputsAreDead;
    hide CanStartNewGeneration;
    assert Settle(s) == s;
    assert !CanStartNewGeneration(s) && !AllOutputsAreDead(s);
  }

  lemma NotedTwice(s: State, t: State, u: State)
    requires NotedStill(s, t) && NotedStill(t, u)
    ensures NotedStill(s, u)
  {
  }

  lemma ChargingKeeps(s: State, k: Site)
    ensures NotedStill(s, Charge(s, k)) && HintAt(Charge(s, k), k) == HintAt(s, k)
  {
  }

  lemma AfterProbeDecided(cfg: Config, s: State, q: State, c: Call, unexpected: bool, trail: seq<State>)
    requires NotedStill(s, q) && !HintAt(q, HereFor(q, c.fn)) && NoWarmupDue(cfg, s, c.fn)
    ensures Decided(cfg, s, AfterProbe(cfg, q, c, unexpected, trail), c)
  {
    hide Decided;
    hide NotedStill;
    hide NoWarmupDue;
    hide UpdateHint;
    hide Charge;
    hide TryEndExecution;
    hide EagerResult;
    hide RecordResult;
    hide ExceedsLimit;
    hide HintAt;
    hide Endable;
    var here := HereFor(q, c.fn);
    var s1 := if |InfoOf(cfg, c.fn).mutated| > 0 then UpdateHint(cfg, q, c.fn, c.inputs) else q;
    NotingKeeps(cfg, q, c.fn, c.inputs);
    if |InfoOf(cfg, c.fn).mutated| > 0 {
      NotedTwice(s, q, s1);
    }
    assert NotedStill(s, s1);
    EagerDecided(cfg, s, s1, c, trail + [s1]);
    var s2 := if unexpected then Charge(s1, here) else s1;
    ChargingKeeps(s1, here);
    if unexpected {
      NotedTwice(s, s1, s2);
    }
    assert NotedStill(s, s2);
    EagerDecided(cfg, s, s2, c, trail + [s1, s2]);
    var s3 := TryEndExecution(s2);
    EndingKeeps(s2);
    NotedTwice(s, s2, s3);
    RecordDecided(cfg, s, s3, c, if unexpected then Some(here) else None, trail + [s1, s2, s3]);
  }

  lemma FailedDecided(cfg: Config, s: State, c: Call, trail: seq<State>, why: Failure)
    requires |trail| > 0 && NotedStill(s, Last(trail))
    ensures Decided(cfg, s, CallResult(Failed(why), trail, None), c)
  {
    hide NotedStill;
  }

  lemma TouchingKeeps(s: State, k: Site)
    ensures NotedStill(s, TouchChildren(s, k))
  {
  }

  lemma ReleasingKeeps(s: State, id: GraphId, c: Call)
    requires id in s.recs
    ensures NotedStill(s, ReleaseInputs(s, id, c))
  {
    hide FreeDead;
  }

  lemma LongerDecided(cfg: Config, s: State, s2: State, c: Call, before: seq<State>, r: CallResult)
    requires NotedStill(s, s2) && s2.warmedUp == s.warmedUp && Decided(cfg, s2, r, c)
    ensures Decided(cfg, s, r.(trail := before + r.trail), c)
  {
    hide Endable;
    hide Checkpoint;
    var longer := r.(trail := before + r.trail);
    NotedTwice(s, s2, Last(r.trail));
    hide NotedStill;
    if r.outcome.Recorded? {
      var w :| RecordedBehind(r, w) && !Endable(w);
      assert RecordedBehind(longer, w);
    }
  }

  lemma ProbeChildrenDecided(cfg: Config, s: State, q: State, c: Call, trail: seq<State>)
    requires NotedStill(s, q) && q.warmedUp == s.warmedUp && !HintAt(q, HereFor(q, c.fn)) && NoWarmupDue(cfg, s, c.fn)
    requires |trail| > 0 && NotedStill(s, Last(trail))
    ensures Decided(cfg, s, ProbeChildren(cfg, q, c, trail), c)
    decreases Rank(q), 0
  {
    hide Decided;
    hide NotedStill;
    hide NoWarmupDue;
    hide ProbeFrom;
    hide AfterProbe;
    hide TryEndExecution;
    hide RunCall;
    hide ReleaseInputs;
    hide ReplayResult;
    hide Endable;
    var here := HereFor(q, c.fn);
    var t := TouchChildren(q, here);
    TouchingKeeps(q, here);
    NotedTwice(s, q, t);
    match ProbeFrom(cfg, t, ChildrenAt(q.children, here), c, 0, false)
    case Accept(child) =>
      if child in t.recs {
        ReplayDecided(cfg, s, t, child, c, trail + [t]);
      } else {
        FailedDecided(cfg, s, c, trail, AliasedOutputGone);
      }
    case Raise(child) =>
      if child in t.recs {
        ReleasingKeeps(t, child, c);
        NotedTwice(s, t, ReleaseInputs(t, child, c));
        FailedDecided(cfg, s, c, trail + [t, ReleaseInputs(t, child, c)], SurvivingInput);
      } else {
        FailedDecided(cfg, s, c, trail, AliasedOutputGone);
      }
    case NoMatch(unexpected) =>
      NoMatchDecided(cfg, s, q, c, trail, unexpected);
  }

  lemma NoMatchDecided(cfg: Config, s: State, q: State, c: Call, trail: seq<State>, unexpected: bool)
    requires NotedStill(s, q) && q.warmedUp == s.warmedUp && !HintAt(q, HereFor(q, c.fn)) && NoWarmupDue(cfg, s, c.fn)
    requires ProbeFrom(cfg, TouchChildren(q, HereFor(q, c.fn)), ChildrenAt(q.children, HereFor(q, c.fn)), c, 0, false) == NoMatch(unexpected)
    ensures Decided(cfg, s, ProbeChildren(cfg, q, c, trail), c)
    decreases Rank(q), 0, 0
  {
    hide Decided;
    hide NotedStill;
    hide NoWarmupDue;
    hide ProbeFrom;
    hide AfterProbe;
    hide TryEndExecution;
    hide RunCall;
    hide Endable;
    var t := TouchChildren(q, HereFor(q, c.fn));
    var u := TryEndExecution(t);
    TouchingKeeps(q, HereFor(q, c.fn));
    NotedTwice(s, q, t);
    EndingKeeps(t);
    NotedTwice(s, t, u);
    if t.current.Some? && Site(None, c.fn) in t.children {
      if u.current.None? {
        RunCallDecided(cfg, u, c);
        LongerDecided(cfg, s, u, c, trail + [t], RunCall(cfg, u, c));
      } else {
        AfterProbeDecided(cfg, s, u, c, unexpected, trail + [t, u]);
      }
    } else {
      AfterProbeDecided(cfg, s, t, c, unexpected, trail + [t]);
    }
  }

  lemma RunBodyDecided(cfg: Config, s: State, c: Call)
    ensures Decided(cfg, s, RunBody(cfg, s, c), c)
    decreases Rank(s), 1
  {
    hide Decided;
    hide NotedStill;
    hide Settle;
    hide EnsureHint;
    hide HintAt;
    hide ExceedsLimit;
    hide EagerResult;
    hide WarmupResult;
    hide RecordResult;
    hide ProbeChildren;
    hide Endable;
    var q := EnsureHint(cfg, Settle(s), c.fn, c.inputs);
    var trail := [s, Settle(s), q];
    SettlingKeeps(s);
    EnsuringKeeps(cfg, Settle(s), c.fn, c.inputs);
    NotedTwice(s, Settle(s), q);
    EagerDecided(cfg, s, q, c, trail);
    WarmupDecided(cfg, s, q, c, trail);
    if !HintAt(q, HereFor(q, c.fn)) && !NeedsWarmup(cfg, q, c.fn) {
      if q.pathState == Recording {
        RecordDecided(cfg, s, q, c, None, trail);
      } else {
        ProbeChildrenDecided(cfg, s, q, c, trail);
      }
    }
  }

  /** One call: mutations noted stay noted; a recording comes behind a path that cannot be ended;
      only a function that needs no warmup is recorded or replayed. */
  lemma RunCallDecided(cfg: Config, s: State, c: Call)
    ensures Decided(cfg, s, RunCall(cfg, s, c), c)
    decreases Rank(s), 2
  {
    hide RunBody;
    RunBodyDecided(cfg, s, c);
    var r := RunBody(cfg, s, c);
    if !r.outcome.Failed? {
      FinishDecided(cfg, s, r, c);
    }
  }

  lemma FinishDecided(cfg: Config, s: State, r: CallResult, c: Call)
    requires Decided(cfg, s, r, c)
    ensures Decided(cfg, s, r.(trail := r.trail + [Finish(cfg, Last(r.trail), c.fn)]), c)
  {
    hide Endable;
    hide Checkpoint;
    var longer := r.(trail := r.trail + [Finish(cfg, Last(r.trail), c.fn)]);
    FinishSame(cfg, Last(r.trail), c.fn);
    hide Finish;
    hide NoWarmupDue;
    assert NotedStill(s, Last(longer.trail));
    hide NotedStill;
    if r.outcome.Recorded? {
      var w :| RecordedBehind(r, w) && !Endable(w);
      assert RecordedBehind(longer, w);
    }
  }

  // ---------------------------------------------------------------- over runs

  lemma StepNotes(cfg: Config, states: seq<State>, events: seq<Event>, n: nat)
    requires IsRun(cfg, states, events) && n < |events|
    ensures NotedStill(states[n], states[n + 1])
  {
    assert Follow(cfg, states[n], events[n], states[n + 1]);
    if events[n].Invoke? {
      RunCallDecided(cfg, states[n], events[n].call);
      CallFollows(cfg, states[n], events[n].call, states[n + 1]);
      hide Follow;
    }
    hide IsRun;
    hide RunCall;
    hide BehindPath;
    hide FreeDead;
    hide Follows;
  }

  lemma {:induction false} MutationsStayNoted(cfg: Config, states: seq<State>, events: seq<Event>, m: nat, n: nat)
    requires IsRun(cfg, states, events) && m <= n < |states|
    ensures NotedStill(states[m], states[n])
    decreases n - m
  {
    hide IsRun;
    if m < n {
      IsRunLengths(cfg, states, events);
      MutationsStayNoted(cfg, states, events, m, n - 1);
      StepNotes(cfg, states, events, n - 1);
      NotedTwice(states[m], states[n - 1], states[n]);
    }
  }

  /** In every run, once a foreign mutation was noted at a site, every later call made there runs
      eagerly. */
  lemma MutationSticks(cfg: Config, states: seq<State>, events: seq<Event>, m: nat, n: nat, k: Site)
    requires IsRun(cfg, states, events) && m <= n < |events| && HintAt(states[m], k)
    requires events[n].Invoke? && HereFor(Settle(states[n]), events[n].call.fn) == k
    ensures RunCall(cfg, states[n], events[n].call).outcome == RanEagerly
  {
    IsRunLengths(cfg, states, events);
    MutationsStayNoted(cfg, states, events, m, n);
    SettledTables(states[n]);
    hide IsRun;
    hide Settle;
    hide ProbeChildren;
    hide UpdateHint;
    hide Finish;
    hide NeedsWarmup;
    hide ExceedsLimit;
    assert HintAt(states[n], k);
    assert HintAt(Settle(states[n]), k);
  }

  /** The path has a live output, and its generation is not over or (with no step marked) a forward
      still waits. */
  ghost predicate StillNeeded(w: State) {
    && !NoneLive(w.heap, w.slots, CurPath(w))
    && (w.currentGen == CurrGeneration(w) || (w.markStep == 0 && w.pendingBackward))
  }

  /** In every run, a node is recorded at the root or behind a path that is still needed. */
  lemma RunRecordsBehindPath(cfg: Config, states: seq<State>, events: seq<Event>, n: nat) returns (w: State)
    requires IsRun(cfg, states, events) && n < |events| && events[n].Invoke?
    requires RunCall(cfg, states[n], events[n].call).outcome.Recorded?
    ensures RecordedBehind(RunCall(cfg, states[n], events[n].call), w) && Valid(w)
    ensures w.current.Some? ==> StillNeeded(w)
  {
    RunCallDecided(cfg, states[n], events[n].call);
    RunMovesPathsLegally(cfg, states, events, n);
    hide IsRun;
    hide RunCall;
    hide NotedStill;
    hide NoWarmupDue;
    hide Checkpoint;
    var r := RunCall(cfg, states[n], events[n].call);
    w :| RecordedBehind(r, w) && !Endable(w);
    InTrailIsValid(r.trail, w);
    hide TrailOk;
    NotEndable(w);
    hide Valid;
    hide Endable;
  }

  lemma InTrailIsValid(trail: seq<State>, w: State)
    requires TrailOk(trail) && w in trail
    ensures Valid(w)
  {
    hide Valid;
    hide LegalStep;
  }

  lemma NotEndable(w: State)
    requires Valid(w) && !Endable(w)
    ensures w.current.Some? ==> StillNeeded(w)
  {
    FastLivenessIsExact(w);
    hide Sound;
    hide PoolOk;
    hide AllOutputsAreDead;
    hide NoneLive;
  }

  /** In every run, a function is recorded or replayed only if warmups are not forced and, unless
      they are skipped, a call warmed it up before. */
  lemma RunNeedsNoWarmup(cfg: Config, states: seq<State>, events: seq<Event>, n: nat) returns (m: nat)
    requires IsRun(cfg, states, events) && n < |events| && events[n].Invoke?
    requires var o := RunCall(cfg, states[n], events[n].call).outcome; o.Recorded? || o.Replayed?
    ensures !cfg.forceWarmup
    ensures cfg.skipWarmup ||
            (m < n && events[m].Invoke? && events[m].call.fn == events[n].call.fn && RunCall(cfg, states[m], events[m].call).outcome.WarmedUp?)
  {
    RunCallDecided(cfg, states[n], events[n].call);
    IsRunLengths(cfg, states, events);
    hide IsRun;
    hide RunCall;
    hide BehindPath;
    hide NotedStill;
    m := 0;
    if !cfg.skipWarmup {
      m := RunWarmer(cfg, states, events, n, events[n].call.fn);
    }
  }
}
