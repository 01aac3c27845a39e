/**
 One call of a wrapped function through the manager: settle what the last call
 left, then run eagerly, warm up, replay a child or record a new one.
 */
module Calls {
  import opened Options
  import opened Storages
  import opened PathIndices
  import opened TreeState
  import opened PathOps
  import opened Checkpoints
  import opened Recordings
  import opened Replays
  import opened Warmups

  datatype Mode = Forward | Backward | Inference

  datatype FunctionInfo = FunctionInfo(mode: Mode, statics: seq<nat>, mutated: seq<nat>)

  /** The settings that calls read; they do not change during a run. */
  datatype Config = Config(
    functions: map<FunctionId, FunctionInfo>,
    skipWarmup: bool,
    forceWarmup: bool,
    inlineModules: bool,
    supportMutation: bool,
    rerecordLimit: nat)

  function InfoOf(cfg: Config, fn: FunctionId): FunctionInfo {
    if fn in cfg.functions then cfg.functions[fn] else FunctionInfo(Inference, [], [])
  }

  predicate RerecordsOnMovedStatics(cfg: Config) {
    cfg.inlineModules || cfg.supportMutation
  }

  /** A call: the function, its argument list, the references held outside that list,
      and what the function does if it is run. */
  datatype Call = Call(fn: FunctionId, inputs: seq<Input>, rest: Heap, run: ModelRun)

  datatype Failure = SurvivingInput | StaticInputMoved | AliasedOutputGone

  /** How a call went. A recording that followed an unexpected mismatch carries the site
      it was charged to. */
  datatype Outcome =
    | RanEagerly
    | WarmedUp(id: GraphId)
    | Replayed(id: GraphId)
    | Recorded(id: GraphId, charge: Option<Site>)
    | Failed(why: Failure)

  /** The outcome, the states the manager went through (first to last), and the state
      in which the function itself was run, if it was. */
  datatype CallResult = CallResult(outcome: Outcome, trail: seq<State>, ranIn: Option<State>)

  // ---------------------------------------------------------------- generations

  predicate InNewInvocation(s: State) {
    s.currentGen != CurrGeneration(s)
  }

  predicate CanStartNewGeneration(s: State) {
    InNewInvocation(s) && (s.markStep != 0 || !s.pendingBackward)
  }

  function EndPathIf(s: State, ends: bool): (r: State)
    ensures r.heap == s.heap && r.rerecords == s.rerecords
    ensures r == s || (r.current == None && r.pathState == NoPath)
  {
    if ends then EndPath(s) else s
  }

  /** End a path that is being recorded or warmed up, if that is allowed now. */
  function TryEndAllocating(s: State): (r: State)
    ensures r.heap == s.heap && r.rerecords == s.rerecords
    ensures r == s || (r.current == None && r.pathState == NoPath)
  {
    if CanStartNewGeneration(s) then EndPath(DeallocPath(s)) else EndPathIf(s, AllOutputsAreDead(s))
  }

  function TryEndExecution(s: State): (r: State)
    ensures r.heap == s.heap && r.rerecords == s.rerecords
    ensures r == s || (r.current == None && r.pathState == NoPath)
  {
    EndPathIf(s, s.current.Some? && (CanStartNewGeneration(s) || AllOutputsAreDead(s)))
  }

  function Settle(s: State): (r: State)
    ensures r.heap == s.heap && r.rerecords == s.rerecords
    ensures r == s || (r.current == None && r.pathState == NoPath)
  {
    if s.pathState in {Recording, WarmingUp} then TryEndAllocating(s) else s
  }

  // ---------------------------------------------------------------- hints and limits

  function HereFor(s: State, fn: FunctionId): Site {
    Site(s.current, fn)
  }

  /** The current node takes the tensor for an output of its path: a graph node by
      address alone, a warmup node only if the output is live. */
  predicate RecognisedByCurrent(s: State, t: Input) {
    if s.current.None? || !t.Tensor? then false
    else if AtGraphNode(s) then IsRecordedTensor(s.slots, CurPath(s), t)
    else t.base in Addresses(ScannedWeakrefs(s.heap, s.slots, CurPath(s)))
  }

  /** Some mutated input is neither static nor an output of the tree. */
  predicate MutatesForeignInput(cfg: Config, s: State, fn: FunctionId, inputs: seq<Input>) {
    var info := InfoOf(cfg, fn);
    exists k | 0 <= k < |info.mutated| ::
      !(info.mutated[k] in info.statics || (info.mutated[k] < |inputs| && RecognisedByCurrent(s, inputs[info.mutated[k]])))
  }

  function UpdateHint(cfg: Config, s: State, fn: FunctionId, inputs: seq<Input>): (r: State)
    ensures r.current == s.current && r.rerecords == s.rerecords
  {
    s.(hints := s.hints[HereFor(s, fn) := MutatesForeignInput(cfg, s, fn, inputs)])
  }

  function EnsureHint(cfg: Config, s: State, fn: FunctionId, inputs: seq<Input>): (r: State)
    ensures r.current == s.current && r.rerecords == s.rerecords
  {
    if HereFor(s, fn) in s.hints then s else UpdateHint(cfg, s, fn, inputs)
  }

  predicate HintAt(s: State, k: Site) {
    k in s.hints && s.hints[k]
  }

  function CountAt(rerecords: map<Site, nat>, k: Site): nat {
    if k in rerecords then rerecords[k] else 0
  }

  function RerecordsAt(s: State, k: Site): nat {
    CountAt(s.rerecords, k)
  }

  predicate OverLimit(cfg: Config, rerecords: map<Site, nat>, k: Site) {
    !cfg.inlineModules && CountAt(rerecords, k) > cfg.rerecordLimit
  }

  predicate ExceedsLimit(cfg: Config, s: State, k: Site) {
    OverLimit(cfg, s.rerecords, k)
  }

  function Charge(s: State, k: Site): State {
    s.(rerecords := s.rerecords[k := RerecordsAt(s, k) + 1])
  }

  /** Looking up the children of a site leaves an entry for it. */
  function TouchChildren(s: State, k: Site): State {
    s.(children := s.children[k := ChildrenAt(s.children, k)])
  }

  // ---------------------------------------------------------------- probing children

  datatype Probe = Accept(child: GraphId) | Raise(child: GraphId) | NoMatch(unexpected: bool)

  /** The children from position `k` on, in recording order; the first that passes wins. */
  function ProbeFrom(cfg: Config, s: State, kids: seq<GraphId>, c: Call, k: nat, unexpected: bool): Probe
    requires k <= |kids|
    decreases |kids| - k
  {
    if k == |kids| then NoMatch(unexpected)
    else if kids[k] !in s.recs then ProbeFrom(cfg, s, kids, c, k + 1, unexpected)
    else match CheckInvariants(RerecordsOnMovedStatics(cfg), s, s.recs[kids[k]], c.rest, c.inputs)
      case Success => Accept(kids[k])
      case Raised => Raise(kids[k])
      case DeadIndicesMismatch => ProbeFrom(cfg, s, kids, c, k + 1, unexpected)
      case ManagedIdxMismatch => ProbeFrom(cfg, s, kids, c, k + 1, true)
      case StaticIdxMismatch => ProbeFrom(cfg, s, kids, c, k + 1, true)
  }

  /** A test that raises has taken the managed inputs out of the caller's list. */
  function ReleaseInputs(s: State, id: GraphId, c: Call): State
    requires id in s.recs
  {
    UserStep(s, HeapWith(c.rest, ClearAt(c.inputs, s.recs[id].managed)), s.nextStorage)
  }

  // ---------------------------------------------------------------- outcomes

  function EagerResult(s: State, c: Call, trail: seq<State>): CallResult {
    CallResult(RanEagerly, trail + [UserStep(s, HeapAfter(s, c.run), c.run.nextStorage)], Some(s))
  }

  function WarmupResult(s: State, c: Call, trail: seq<State>): CallResult {
    var t := if s.pathState == Executing then Checkpoint(s) else s;
    CallResult(WarmedUp(t.nextWarmup), trail + [WarmUp(t, c.fn, c.inputs, c.run)], Some(t))
  }

  /** The path is restored in the allocator if it was replayed, then extended. */
  function RecordResult(cfg: Config, s: State, c: Call, charge: Option<Site>, trail: seq<State>): CallResult {
    var t := if s.pathState == Executing then Checkpoint(s) else s;
    CallResult(Recorded(t.nextGraph, charge),
               trail + [Record(t, c.fn, InfoOf(cfg, c.fn).statics, c.inputs, c.run)], Some(t))
  }

  function ReplayResult(cfg: Config, s: State, id: GraphId, c: Call, trail: seq<State>): CallResult
    requires id in s.recs
  {
    var r := s.recs[id];
    if !RerecordsOnMovedStatics(cfg) && !StaticsStable(r, ClearAt(c.inputs, r.managed)) then
      CallResult(Failed(StaticInputMoved), trail, None)
    else if !AliasedPriorsLive(RebuildHeap(r, c.rest, c.inputs), s.slots, r) || !Replayable(s, id) then
      CallResult(Failed(AliasedOutputGone), trail, None)
    else
      CallResult(Replayed(id), trail + [Replay(s, id, c.rest)], None)
  }

  /** What an accepted node leaves, whether or not its replay raises. */
  function AfterReplay(cfg: Config, s: State, id: GraphId, c: Call): State
    requires Replayable(s, id)
  {
    match ReplayResult(cfg, s, id, c, [s]).outcome
    case Failed(StaticInputMoved) => StoppedAtInputs(s, id, c.rest, c.inputs)
    case Failed(_) => StoppedAtOutputs(s, id, c.rest, c.inputs)
    case _ => Replay(s, id, c.rest)
  }

  predicate NeedsWarmup(cfg: Config, s: State, fn: FunctionId) {
    !(fn in s.warmedUp || cfg.skipWarmup) || s.pathState == WarmingUp || cfg.forceWarmup
  }

  /** What is left when no child matched: a mutation check, a charge, then a recording. */
  function AfterProbe(cfg: Config, s: State, c: Call, unexpected: bool, trail: seq<State>): CallResult {
    var here := HereFor(s, c.fn);
    var s1 := if |InfoOf(cfg, c.fn).mutated| > 0 then UpdateHint(cfg, s, c.fn, c.inputs) else s;
    if |InfoOf(cfg, c.fn).mutated| > 0 && HintAt(s1, here) then EagerResult(s1, c, trail + [s1])
    else
      var s2 := if unexpected then Charge(s1, here) else s1;
      if unexpected && ExceedsLimit(cfg, s2, here) then EagerResult(s2, c, trail + [s1, s2])
      else
        var s3 := TryEndExecution(s2);
        RecordResult(cfg, s3, c, if unexpected then Some(here) else None, trail + [s1, s2, s3])
  }

  /** How far `run` is from having no current node. */
  function Rank(s: State): nat {
    if s.current.None? then 0 else 1
  }

  /** `run`: the body, then the pending-backward flag by the function's mode. The body
      calls `run` again only once it has ended the current path. */
  function RunCall(cfg: Config, s: State, c: Call): CallResult
    decreases Rank(s), 2
  {
    var r := RunBody(cfg, s, c);
    if r.outcome.Failed? || |r.trail| == 0 then r
    else r.(trail := r.trail + [Finish(cfg, r.trail[|r.trail| - 1], c.fn)])
  }

  function Finish(cfg: Config, s: State, fn: FunctionId): (r: State)
    ensures r.rerecords == s.rerecords
  {
    match InfoOf(cfg, fn).mode
    case Forward => s.(pendingBackward := true)
    case Backward => s.(pendingBackward := false)
    case Inference => s
  }

  function RunBody(cfg: Config, s: State, c: Call): CallResult
    decreases Rank(s), 1
  {
    var s1 := Settle(s);
    var s2 := EnsureHint(cfg, s1, c.fn, c.inputs);
    var here := HereFor(s2, c.fn);
    var trail := [s, s1, s2];
    if HintAt(s2, here) || ExceedsLimit(cfg, s2, here) then EagerResult(s2, c, trail)
    else if NeedsWarmup(cfg, s2, c.fn) then WarmupResult(s2, c, trail)
    else if s2.pathState == Recording then RecordResult(cfg, s2, c, None, trail)
    else ProbeChildren(cfg, s2, c, trail)
  }

  /** Replay the first child that passes; otherwise, if the function is also a root, try to
      end the path and start over; otherwise go on to record. */
  function ProbeChildren(cfg: Config, s: State, c: Call, trail: seq<State>): CallResult
    decreases Rank(s), 0
  {
    var here := HereFor(s, c.fn);
    var kids := ChildrenAt(s.children, here);
    var s1 := TouchChildren(s, here);
    match ProbeFrom(cfg, s1, kids, c, 0, false)
    case Accept(child) =>
      if child in s1.recs then ReplayResult(cfg, s1, child, c, trail + [s1]) else CallResult(Failed(AliasedOutputGone), trail, None)
    case Raise(child) =>
      if child in s1.recs then CallResult(Failed(SurvivingInput), trail + [s1, ReleaseInputs(s1, child, c)], None)
      else CallResult(Failed(AliasedOutputGone), trail, None)
    case NoMatch(unexpected) =>
      if s1.current.Some? && Site(None, c.fn) in s1.children then
        var s2 := TryEndExecution(s1);
        if s2.current.None? then
          var r := RunCall(cfg, s2, c);
          r.(trail := trail + [s1] + r.trail)
        else AfterProbe(cfg, s2, c, unexpected, trail + [s1, s2])
      else AfterProbe(cfg, s1, c, unexpected, trail + [s1])
  }
}
