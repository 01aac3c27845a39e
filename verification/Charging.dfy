/**
 When a recording counts as unexpected: some child of the site was refused because an input
 was not at its recorded address. Exactly then the recording is charged to the site.
 */
module Charging {
  import opened Options
  import opened Storages
  import opened PathIndices
  import opened TreeState
  import opened PathOps
  import opened Recordings
  import opened Replays
  import opened Acceptance
  import opened Calls
  import opened CallProofs
  import opened Runs
  import opened RerecordLimit

  /** The child is refused for a pointer: an input that the tree manages moved or, where that
      counts and the expected outputs are dead, a static one did. */
  predicate Unexpected(cfg: Config, s: State, r: GraphRecord, inputs: seq<Input>) {
    || ManagedElsewhere(r, inputs)
    || (RerecordsOnMovedStatics(cfg) && StaticElsewhere(r, inputs) && AllIndexedDead(s.heap, s.slots, r.path, r.deadBefore))
  }

  /** Some child at the current site is refused for a pointer. */
  predicate SomeUnexpected(cfg: Config, s: State, c: Call) {
    var kids := ChildrenAt(s.children, HereFor(s, c.fn));
    exists j :: 0 <= j < |kids| && kids[j] in s.recs && Unexpected(cfg, s, s.recs[kids[j]], c.inputs)
  }

  lemma UnexpectedIsPointer(cfg: Config, s: State, r: GraphRecord, c: Call)
    ensures CheckInvariants(RerecordsOnMovedStatics(cfg), s, r, c.rest, c.inputs) in {ManagedIdxMismatch, StaticIdxMismatch} <==>
            Unexpected(cfg, s, r, c.inputs)
  {
    ElsewhereIff(r, c.inputs);
    hide PtrsEqual;
    hide ManagedElsewhere;
    hide StaticElsewhere;
    hide AllIndexedDead;
  }

  /** Probing without a match says whether a child was refused for a pointer. */
  lemma {:induction false} ProbeFlagIff(cfg: Config, s: State, kids: seq<GraphId>, c: Call, k: nat, unexpected: bool)
    requires k <= |kids| && ProbeFrom(cfg, s, kids, c, k, unexpected).NoMatch?
    ensures ProbeFrom(cfg, s, kids, c, k, unexpected).unexpected <==>
            unexpected || exists j :: k <= j < |kids| && kids[j] in s.recs && Unexpected(cfg, s, s.recs[kids[j]], c.inputs)
    decreases |kids| - k
  {
    hide CheckInvariants;
    hide Unexpected;
    if k < |kids| {
      if kids[k] in s.recs {
        UnexpectedIsPointer(cfg, s, s.recs[kids[k]], c);
        ProbeFlagIff(cfg, s, kids, c, k + 1, unexpected || Unexpected(cfg, s, s.recs[kids[k]], c.inputs));
      } else {
        ProbeFlagIff(cfg, s, kids, c, k + 1, unexpected);
      }
    }
  }

  // ---------------------------------------------------------------- the charge of a call

  /** The state whose children decide the call: after settling, or at the roots if the path was
      ended to start over there. */
  function ProbedState(cfg: Config, s: State, c: Call): State {
    var q := EnsureHint(cfg, Settle(s), c.fn, c.inputs);
    var t := TouchChildren(q, HereFor(q, c.fn));
    if q.pathState in {NoPath, Executing} && q.current.Some? && Site(None, c.fn) in t.children && TryEndExecution(t).current.None? then
      EnsureHint(cfg, TryEndExecution(t), c.fn, c.inputs)
    else q
  }

  /** The site to which a recording by this call is charged: none behind a recording, where no
      child is probed. */
  function ChargeDue(cfg: Config, s: State, c: Call): Option<Site> {
    var p := ProbedState(cfg, s, c);
    if p.pathState != Recording && SomeUnexpected(cfg, p, c) then Some(HereFor(p, c.fn)) else None
  }

  lemma AfterProbeCharge(cfg: Config, s: State, c: Call, unexpected: bool, trail: seq<State>)
    ensures var o := AfterProbe(cfg, s, c, unexpected, trail).outcome;
            o.Recorded? ==> o.charge == if unexpected then Some(HereFor(s, c.fn)) else None
  {
    hide UpdateHint;
    hide TryEndExecution;
    hide ExceedsLimit;
  }

  lemma TouchedUnexpected(cfg: Config, s: State, c: Call)
    ensures var t := TouchChildren(s, HereFor(s, c.fn));
            var kids := ChildrenAt(s.children, HereFor(s, c.fn));
            && (exists j :: 0 <= j < |kids| && kids[j] in t.recs && Unexpected(cfg, t, t.recs[kids[j]], c.inputs)) <==> SomeUnexpected(cfg, s, c)
  {
    var t := TouchChildren(s, HereFor(s, c.fn));
    forall r: GraphRecord
      ensures Unexpected(cfg, t, r, c.inputs) <==> Unexpected(cfg, s, r, c.inputs)
    {
    }
    hide Unexpected;
  }

  /** Probing at `q`: a recording made without starting over is charged to `q`'s site exactly when
      a child of `q` was refused for a pointer. */
  lemma ProbeCharge(cfg: Config, q: State, c: Call, trail: seq<State>)
    requires ProbeChildren(cfg, q, c, trail).outcome.Recorded?
    ensures var t := TouchChildren(q, HereFor(q, c.fn));
            if q.current.Some? && Site(None, c.fn) in t.children && TryEndExecution(t).current.None? then
              ProbeChildren(cfg, q, c, trail).outcome == RunCall(cfg, TryEndExecution(t), c).outcome
            else
              ProbeChildren(cfg, q, c, trail).outcome.charge == if SomeUnexpected(cfg, q, c) then Some(HereFor(q, c.fn)) else None
  {
    hide ProbeFrom;
    hide AfterProbe;
    hide TryEndExecution;
    hide SomeUnexpected;
    hide RunCall;
    hide ReleaseInputs;
    hide StaticsStable;
    hide AliasedPriorsLive;
    var here := HereFor(q, c.fn);
    var t := TouchChildren(q, here);
    var kids := ChildrenAt(q.children, here);
    TouchedUnexpected(cfg, q, c);
    var p := ProbeFrom(cfg, t, kids, c, 0, false);
    if p.NoMatch? {
      ProbeFlagIff(cfg, t, kids, c, 0, false);
      AfterProbeCharge(cfg, t, c, p.unexpected, trail + [t]);
      AfterProbeCharge(cfg, TryEndExecution(t), c, p.unexpected, trail + [t, TryEndExecution(t)]);
    }
  }

  /** A recording by a call that does not start over. */
  lemma DueHere(cfg: Config, s: State, c: Call)
    requires var q := EnsureHint(cfg, Settle(s), c.fn, c.inputs);
             var t := TouchChildren(q, HereFor(q, c.fn));
             && q.pathState != Recording
             && (q.current.Some? ==> Site(None, c.fn) !in t.children || TryEndExecution(t).current.Some?)
    ensures var q := EnsureHint(cfg, Settle(s), c.fn, c.inputs);
            ChargeDue(cfg, s, c) == if SomeUnexpected(cfg, q, c) then Some(HereFor(q, c.fn)) else None
  {
    hide Settle;
    hide EnsureHint;
    hide TryEndExecution;
    hide SomeUnexpected;
    hide TouchChildren;
  }

  /** A call that records does so behind a recording, or after probing. */
  lemma RecordsOrProbes(cfg: Config, s: State, c: Call)
    requires RunCall(cfg, s, c).outcome.Recorded?
    ensures var q := EnsureHint(cfg, Settle(s), c.fn, c.inputs);
            if q.pathState == Recording then RunCall(cfg, s, c).outcome.charge == None
            else q.pathState in {NoPath, Executing} && RunCall(cfg, s, c).outcome == ProbeChildren(cfg, q, c, [s, Settle(s), q]).outcome
  {
    hide Settle;
    hide EnsureHint;
    hide ProbeChildren;
    hide ExceedsLimit;
    hide HintAt;
    hide Finish;
  }

  /** A recording is charged exactly when it is due, and to that site. */
  lemma CallChargesWhatIsDue(cfg: Config, s: State, c: Call)
    requires RunCall(cfg, s, c).outcome.Recorded?
    ensures RunCall(cfg, s, c).outcome.charge == ChargeDue(cfg, s, c)
    decreases Rank(s)
  {
    hide Settle;
    hide EnsureHint;
    hide TryEndExecution;
    hide SomeUnexpected;
    hide ProbeChildren;
    hide RunCall;
    hide HereFor;
    RecordsOrProbes(cfg, s, c);
    var q := EnsureHint(cfg, Settle(s), c.fn, c.inputs);
    if q.pathState != Recording {
      ProbeCharge(cfg, q, c, [s, Settle(s), q]);
      var t := TouchChildren(q, HereFor(q, c.fn));
      if q.current.Some? && Site(None, c.fn) in t.children && TryEndExecution(t).current.None? {
        SettledRank(cfg, s, c);
        CallChargesWhatIsDue(cfg, TryEndExecution(t), c);
        StartedOver(cfg, t, c);
      } else {
        DueHere(cfg, s, c);
      }
    }
  }

  lemma SettledRank(cfg: Config, s: State, c: Call)
    requires EnsureHint(cfg, Settle(s), c.fn, c.inputs).current.Some?
    ensures s.current.Some?
  {
    hide AllOutputsAreDead;
    hide MutatesForeignInput;
    hide CanStartNewGeneration;
  }

  /** Started over at the roots, the call is decided there. */
  lemma StartedOver(cfg: Config, t: State, c: Call)
    requires t.current.Some? && TryEndExecution(t).current.None?
    ensures var s := TryEndExecution(t); ProbedState(cfg, s, c) == EnsureHint(cfg, s, c.fn, c.inputs)
  {
    hide AllOutputsAreDead;
    hide MutatesForeignInput;
    hide CanStartNewGeneration;
  }

  // ---------------------------------------------------------------- over runs

  /** How many of the first `n` events recorded the function of site `k` there although a child
      of the site was refused for a pointer. */
  ghost function UnexpectedRecordings(cfg: Config, states: seq<State>, events: seq<Event>, n: nat, k: Site): nat
    requires n <= |events| < |states|
  {
    if n == 0 then 0
    else UnexpectedRecordings(cfg, states, events, n - 1, k) +
         (if events[n - 1].Invoke? && RecordsUnexpectedly(cfg, states[n - 1], events[n - 1].call, k) then 1 else 0)
  }

  ghost predicate RecordsUnexpectedly(cfg: Config, s: State, c: Call, k: Site) {
    && RunCall(cfg, s, c).outcome.Recorded?
    && var p := ProbedState(cfg, s, c);
       p.pathState != Recording && SomeUnexpected(cfg, p, c) && HereFor(p, c.fn) == k
  }

  lemma {:induction false} UnexpectedAreCharged(cfg: Config, states: seq<State>, events: seq<Event>, n: nat, k: Site)
    requires n <= |events| < |states|
    ensures UnexpectedRecordings(cfg, states, events, n, k) == ChargedRecordings(cfg, states, events, n, k)
  {
    hide RunCall;
    hide ProbedState;
    hide SomeUnexpected;
    if n > 0 {
      UnexpectedAreCharged(cfg, states, events, n - 1, k);
      if events[n - 1].Invoke? && RunCall(cfg, states[n - 1], events[n - 1].call).outcome.Recorded? {
        CallChargesWhatIsDue(cfg, states[n - 1], events[n - 1].call);
      }
    }
  }

  /** With module inlining off, in every run a function is recorded at a site at most `limit` times
      although a child there was refused for a pointer. */
  lemma RunBoundsUnexpected(cfg: Config, states: seq<State>, events: seq<Event>, n: nat, k: Site)
    requires IsRun(cfg, states, events) && n <= |events| && !cfg.inlineModules
    ensures UnexpectedRecordings(cfg, states, events, n, k) <= cfg.rerecordLimit
  {
    UnexpectedAreCharged(cfg, states, events, n, k);
    RunRespectsLimit(cfg, states, events, n, k);
    hide IsRun;
  }

  // ---------------------------------------------------------------- eager runs

  /** A call runs eagerly only where a foreign mutation was noted, or the counter is past the limit. */
  predicate EagerReason(cfg: Config, s: State, fn: FunctionId) {
    HintAt(s, HereFor(s, fn)) || (!cfg.inlineModules && CountAt(s.rerecords, HereFor(s, fn)) > cfg.rerecordLimit)
  }

  lemma AfterProbeEager(cfg: Config, s: State, c: Call, unexpected: bool, trail: seq<State>)
    ensures var r := AfterProbe(cfg, s, c, unexpected, trail);
            r.outcome.RanEagerly? ==> r.ranIn.Some? && EagerReason(cfg, r.ranIn.value, c.fn)
  {
    hide TryEndExecution;
    hide MutatesForeignInput;
  }

  lemma ProbeEager(cfg: Config, q: State, c: Call, trail: seq<State>)
    ensures var r := ProbeChildren(cfg, q, c, trail);
            r.outcome.RanEagerly? ==> r.ranIn.Some? && EagerReason(cfg, r.ranIn.value, c.fn)
    decreases Rank(q), 0
  {
    hide ProbeFrom;
    hide AfterProbe;
    hide TryEndExecution;
    hide RunCall;
    hide ReleaseInputs;
    hide StaticsStable;
    hide AliasedPriorsLive;
    hide EagerReason;
    var t := TouchChildren(q, HereFor(q, c.fn));
    var p := ProbeFrom(cfg, t, ChildrenAt(q.children, HereFor(q, c.fn)), c, 0, false);
    if p.NoMatch? {
      var u := TryEndExecution(t);
      AfterProbeEager(cfg, t, c, p.unexpected, trail + [t]);
      AfterProbeEager(cfg, u, c, p.unexpected, trail + [t, u]);
      if t.current.Some? && u.current.None? {
        CallEagerReason(cfg, u, c);
      }
    }
  }

  /** A call that runs eagerly does so at once, or after probing. */
  lemma EagerOrProbes(cfg: Config, s: State, c: Call)
    requires RunCall(cfg, s, c).outcome.RanEagerly?
    ensures var q, r := EnsureHint(cfg, Settle(s), c.fn, c.inputs), RunCall(cfg, s, c);
            || (r.ranIn == Some(q) && EagerReason(cfg, q, c.fn))
            || (var p := ProbeChildren(cfg, q, c, [s, Settle(s), q]); p.outcome.RanEagerly? && r.ranIn == p.ranIn)
  {
    hide Settle;
    hide EnsureHint;
    hide ProbeChildren;
    hide Finish;
    hide NeedsWarmup;
  }

  lemma CallEagerReason(cfg: Config, s: State, c: Call)
    ensures var r := RunCall(cfg, s, c);
            r.outcome.RanEagerly? ==> r.ranIn.Some? && EagerReason(cfg, r.ranIn.value, c.fn)
    decreases Rank(s), 1
  {
    if RunCall(cfg, s, c).outcome.RanEagerly? {
      EagerOrProbes(cfg, s, c);
      var q := EnsureHint(cfg, Settle(s), c.fn, c.inputs);
      ProbeEager(cfg, q, c, [s, Settle(s), q]);
    }
    hide ProbeChildren;
    hide RunCall;
    hide EagerReason;
  }
}
