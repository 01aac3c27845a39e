/**
 How often a function is re-recorded at one place. An unexpected mismatch is charged
 to the site (current node, function) before anything is recorded; past the limit
 the function runs eagerly there.
 */
module RerecordLimit {
  import opened Options
  import opened Storages
  import opened TreeState
  import opened PathOps
  import opened Checkpoints
  import opened Recordings
  import opened Replays
  import opened Warmups
  import opened Calls
  import opened Runs

  ghost predicate SameCounts(s: State, t: State) {
    t.rerecords == s.rerecords
  }

  /** Between the counters `m` and `n` at most one went up, by one, and only one still within
      the limit; a charged recording is one that left its counter within the limit. */
  ghost predicate ChargedCounts(cfg: Config, m: map<Site, nat>, n: map<Site, nat>, o: Outcome) {
    && (forall k: Site :: CountAt(m, k) <= CountAt(n, k) <= CountAt(m, k) + 1)
    && (forall k: Site :: CountAt(n, k) != CountAt(m, k) ==> !OverLimit(cfg, m, k))
    && (o.Recorded? && o.charge.Some? ==>
          CountAt(n, o.charge.value) == CountAt(m, o.charge.value) + 1 && !OverLimit(cfg, n, o.charge.value))
  }

  ghost predicate Charged(cfg: Config, s: State, t: State, o: Outcome) {
    ChargedCounts(cfg, s.rerecords, t.rerecords, o)
  }

  lemma UnchangedCounts(cfg: Config, m: map<Site, nat>, o: Outcome)
    requires o.Recorded? ==> o.charge.None?
    ensures ChargedCounts(cfg, m, m, o)
  {
  }

  lemma ChargeCounts(cfg: Config, m: map<Site, nat>, k: Site, o: Outcome)
    requires !OverLimit(cfg, m, k)
    requires o.Recorded? && o.charge.Some? ==> o.charge == Some(k) && !OverLimit(cfg, m[k := CountAt(m, k) + 1], k)
    ensures ChargedCounts(cfg, m, m[k := CountAt(m, k) + 1], o)
  {
  }

  function FinalState(r: CallResult): State
    requires |r.trail| > 0
  {
    r.trail[|r.trail| - 1]
  }

  lemma EagerCounts(s: State, c: Call, trail: seq<State>)
    ensures |EagerResult(s, c, trail).trail| > 0 && SameCounts(s, FinalState(EagerResult(s, c, trail)))
  {
  }

  lemma WarmupCounts(s: State, c: Call, trail: seq<State>)
    ensures |WarmupResult(s, c, trail).trail| > 0 && SameCounts(s, FinalState(WarmupResult(s, c, trail)))
    ensures WarmupResult(s, c, trail).outcome.WarmedUp?
  {
    hide RemoveCached;
    hide PathLiveWeakrefs;
    CheckpointCounts(s);
  }

  lemma CheckpointCounts(s: State)
    ensures Checkpoint(s).rerecords == s.rerecords
  {
    hide PathLiveWeakrefs;
    hide DeadAddresses;
  }

  lemma RecordCounts(cfg: Config, s: State, c: Call, charge: Option<Site>, trail: seq<State>)
    ensures var r := RecordResult(cfg, s, c, charge, trail);
            |r.trail| > 0 && SameCounts(s, FinalState(r)) && r.outcome.Recorded? && r.outcome.charge == charge
  {
    hide RemoveCached;
    hide PathLiveWeakrefs;
    hide NewRecord;
    hide RecordedPool;
    hide RecordedSlots;
    hide MarkAliased;
    CheckpointCounts(s);
  }

  lemma AfterProbeCounts(cfg: Config, s: State, c: Call, unexpected: bool, trail: seq<State>)
    requires !ExceedsLimit(cfg, s, HereFor(s, c.fn))
    ensures var r := AfterProbe(cfg, s, c, unexpected, trail);
            |r.trail| > 0 && Charged(cfg, s, FinalState(r), r.outcome)
  {
    hide UpdateHint;
    hide TryEndExecution;
    hide EagerResult;
    hide RecordResult;
    var here := HereFor(s, c.fn);
    var s1 := if |InfoOf(cfg, c.fn).mutated| > 0 then UpdateHint(cfg, s, c.fn, c.inputs) else s;
    var s2 := if unexpected then Charge(s1, here) else s1;
    var s3 := TryEndExecution(s2);
    EagerCounts(s1, c, trail + [s1]);
    EagerCounts(s2, c, trail + [s1, s2]);
    RecordCounts(cfg, s3, c, if unexpected then Some(here) else None, trail + [s1, s2, s3]);
    EagerOutcome(s1, c, trail + [s1]);
    EagerOutcome(s2, c, trail + [s1, s2]);
    hide ChargedCounts;
    var r := AfterProbe(cfg, s, c, unexpected, trail);
    if unexpected && r.trail != [] && FinalState(r).rerecords != s.rerecords {
      ChargeCounts(cfg, s.rerecords, here, r.outcome);
    } else {
      UnchangedCounts(cfg, s.rerecords, r.outcome);
    }
  }

  lemma EagerOutcome(s: State, c: Call, trail: seq<State>)
    ensures EagerResult(s, c, trail).outcome == RanEagerly
  {
  }

  lemma ReplayCounts(cfg: Config, s: State, id: GraphId, c: Call, trail: seq<State>)
    requires id in s.recs && |trail| > 0 && SameCounts(s, trail[|trail| - 1])
    ensures var r := ReplayResult(cfg, s, id, c, trail);
            |r.trail| > 0 && SameCounts(s, FinalState(r)) && !r.outcome.Recorded?
  {
    hide StaticsStable;
    hide AliasedPriorsLive;
    hide RebuiltRow;
  }

  lemma ReleaseCounts(s: State, id: GraphId, c: Call)
    requires id in s.recs
    ensures ReleaseInputs(s, id, c).rerecords == s.rerecords
  {
  }

  lemma ProbeChildrenCounts(cfg: Config, s: State, c: Call, trail: seq<State>)
    requires !ExceedsLimit(cfg, s, HereFor(s, c.fn)) && |trail| > 0 && SameCounts(s, trail[|trail| - 1])
    ensures var r := ProbeChildren(cfg, s, c, trail);
            |r.trail| > 0 && Charged(cfg, s, FinalState(r), r.outcome)
    decreases Rank(s), 1
  {
    hide TryEndExecution;
    hide ProbeFrom;
    hide AfterProbe;
    hide ReplayResult;
    hide ChargedCounts;
    hide RunCall;
    hide ReleaseInputs;
    hide ExceedsLimit;
    var here := HereFor(s, c.fn);
    var s1 := TouchChildren(s, here);
    UnchangedCounts(cfg, s.rerecords, Failed(SurvivingInput));
    UnchangedCounts(cfg, s.rerecords, Failed(AliasedOutputGone));
    match ProbeFrom(cfg, s1, ChildrenAt(s.children, here), c, 0, false)
    case Accept(child) =>
      if child in s1.recs {
        ReplayCounts(cfg, s1, child, c, trail + [s1]);
        UnchangedCounts(cfg, s.rerecords, ReplayResult(cfg, s1, child, c, trail + [s1]).outcome);
      }
    case Raise(child) =>
      if child in s1.recs {
        ReleaseCounts(s1, child, c);
      }
    case NoMatch(unexpected) => NoMatchCounts(cfg, s, c, trail, unexpected);
  }

  lemma NoMatchCounts(cfg: Config, s: State, c: Call, trail: seq<State>, unexpected: bool)
    requires !ExceedsLimit(cfg, s, HereFor(s, c.fn))
    requires ProbeFrom(cfg, TouchChildren(s, HereFor(s, c.fn)), ChildrenAt(s.children, HereFor(s, c.fn)), c, 0, false) == NoMatch(unexpected)
    ensures var r := ProbeChildren(cfg, s, c, trail);
            |r.trail| > 0 && Charged(cfg, s, FinalState(r), r.outcome)
    decreases Rank(s), 0
  {
    hide TryEndExecution;
    hide ProbeFrom;
    hide AfterProbe;
    hide ReplayResult;
    hide ReleaseInputs;
    hide ChargedCounts;
    hide RunCall;
    var s1 := TouchChildren(s, HereFor(s, c.fn));
    if s1.current.Some? && Site(None, c.fn) in s1.children {
      var s2 := TryEndExecution(s1);
      if s2.current.None? {
        CallCounts(cfg, s2, c);
      } else {
        AfterProbeCounts(cfg, s2, c, unexpected, trail + [s1, s2]);
      }
    } else {
      AfterProbeCounts(cfg, s1, c, unexpected, trail + [s1]);
    }
  }

  lemma BodyCounts(cfg: Config, s: State, c: Call)
    ensures var r := RunBody(cfg, s, c);
            |r.trail| > 0 && Charged(cfg, s, FinalState(r), r.outcome)
    decreases Rank(s), 2
  {
    hide Settle;
    hide EnsureHint;
    hide ProbeChildren;
    hide WarmupResult;
    hide RecordResult;
    hide EagerResult;
    hide ChargedCounts;
    var s1 := Settle(s);
    var s2 := EnsureHint(cfg, s1, c.fn, c.inputs);
    var trail := [s, s1, s2];
    EagerCounts(s2, c, trail);
    EagerOutcome(s2, c, trail);
    WarmupCounts(s2, c, trail);
    RecordCounts(cfg, s2, c, None, trail);
    UnchangedCounts(cfg, s.rerecords, RanEagerly);
    UnchangedCounts(cfg, s.rerecords, WarmupResult(s2, c, trail).outcome);
    UnchangedCounts(cfg, s.rerecords, RecordResult(cfg, s2, c, None, trail).outcome);
    if !ExceedsLimit(cfg, s2, HereFor(s2, c.fn)) {
      ProbeChildrenCounts(cfg, s2, c, trail);
    }
  }

  /** One call charges at most once, and only below the limit. */
  lemma CallCounts(cfg: Config, s: State, c: Call)
    ensures var r := RunCall(cfg, s, c);
            |r.trail| > 0 && Charged(cfg, s, FinalState(r), r.outcome)
    decreases Rank(s), 3
  {
    hide RunBody;
    hide Finish;
    BodyCounts(cfg, s, c);
  }

  // ---------------------------------------------------------------- over runs

  /** Number of recordings charged to site `k` among the first `n` events. */
  ghost function ChargedRecordings(cfg: Config, states: seq<State>, events: seq<Event>, n: nat, k: Site): nat
    requires n <= |events| < |states|
  {
    if n == 0 then 0
    else ChargedRecordings(cfg, states, events, n - 1, k) +
         (if events[n - 1].Invoke? && IsChargedTo(RunCall(cfg, states[n - 1], events[n - 1].call).outcome, k) then 1 else 0)
  }

  predicate IsChargedTo(o: Outcome, k: Site) {
    o.Recorded? && o.charge == Some(k)
  }

  lemma FollowCounts(cfg: Config, s: State, e: Event, t: State)
    requires Follow(cfg, s, e, t)
    ensures if e.Invoke? then Charged(cfg, s, t, RunCall(cfg, s, e.call).outcome) else SameCounts(s, t)
  {
    hide RunCall;
    hide ChargedCounts;
    if e.Invoke? {
      CallCounts(cfg, s, e.call);
    }
  }

  /** With module inlining off, in every run each site is charged at most `limit` recordings
      and its counter never exceeds limit + 1. */
  lemma {:induction false} RunRespectsLimit(cfg: Config, states: seq<State>, events: seq<Event>, n: nat, k: Site)
    requires IsRun(cfg, states, events) && n <= |events| && !cfg.inlineModules
    ensures ChargedRecordings(cfg, states, events, n, k) <= RerecordsAt(states[n], k) <= cfg.rerecordLimit + 1
    ensures ChargedRecordings(cfg, states, events, n, k) <= cfg.rerecordLimit
  {
    hide Follow;
    hide RunCall;
    if n > 0 {
      RunRespectsLimit(cfg, states, events, n - 1, k);
      assert Follow(cfg, states[n - 1], events[n - 1], states[n]);
      FollowCounts(cfg, states[n - 1], events[n - 1], states[n]);
    }
  }

  lemma {:induction false} CountsNeverFall(cfg: Config, states: seq<State>, events: seq<Event>, m: nat, n: nat, k: Site)
    requires IsRun(cfg, states, events) && m <= n < |states|
    ensures RerecordsAt(states[m], k) <= RerecordsAt(states[n], k)
    decreases n - m
  {
    hide Follow;
    hide RunCall;
    if m < n {
      CountsNeverFall(cfg, states, events, m, n - 1, k);
      assert Follow(cfg, states[n - 1], events[n - 1], states[n]);
      FollowCounts(cfg, states[n - 1], events[n - 1], states[n]);
    }
  }

  /** Once a site is past the limit, every later call made there runs eagerly. */
  lemma PastLimitRunsEagerly(cfg: Config, states: seq<State>, events: seq<Event>, m: nat, n: nat, k: Site)
    requires IsRun(cfg, states, events) && m <= n < |events| && ExceedsLimit(cfg, states[m], k)
    requires events[n].Invoke? && HereFor(Settle(states[n]), events[n].call.fn) == k
    ensures RunCall(cfg, states[n], events[n].call).outcome == RanEagerly
  {
    hide Follow;
    hide Settle;
    hide EnsureHint;
    hide ProbeChildren;
    CountsNeverFall(cfg, states, events, m, n, k);
  }
}
