/**
 Merging a torch operator entry with the musa entry that overrides it: which kernel
 serves each musa dispatch key, and whether that kernel is torch's own.
 */
module OpMerge {
  import opened Options

  datatype DispatchKey =
    | PrivateUse1 | QuantizedPrivateUse1 | SparsePrivateUse1 | SparseCsrPrivateUse1
    | NestedTensorPrivateUse1 | AutogradPrivateUse1 | CompositeExplicitAutograd
    | CPU | CUDA | QuantizedCPU | QuantizedCUDA | SparseCPU | SparseCUDA | SparseCsrCPU | SparseCsrCUDA
    | NestedTensorCPU | NestedTensorCUDA | AutogradCPU | AutogradCUDA | OtherKey(name: string)

  const MusaKeys: seq<DispatchKey> := [
    PrivateUse1, QuantizedPrivateUse1, SparsePrivateUse1, SparseCsrPrivateUse1,
    NestedTensorPrivateUse1, AutogradPrivateUse1, CompositeExplicitAutograd]

  predicate IsMusaKey(k: DispatchKey) {
    k in MusaKeys
  }

  /** The torch keys that may share a kernel with a musa key; none is defined for
      `CompositeExplicitAutograd`, where asking for them is an error. */
  function RelatedKeys(k: DispatchKey): Option<seq<DispatchKey>> {
    match k
    case PrivateUse1 => Some([CPU, CUDA])
    case QuantizedPrivateUse1 => Some([QuantizedCPU, QuantizedCUDA])
    case SparseCsrPrivateUse1 => Some([SparseCsrCPU, SparseCsrCUDA])
    case SparsePrivateUse1 => Some([SparseCPU, SparseCUDA])
    case NestedTensorPrivateUse1 => Some([NestedTensorCPU, NestedTensorCUDA])
    case AutogradPrivateUse1 => Some([AutogradCPU, AutogradCUDA])
    case _ => None
  }

  datatype ImplKind = Legacy | LegacyMeta | Customized

  datatype Why =
    | EmptyDispatch | RepeatedKey
    | UfuncNeedsKernel | NoCudaKernel | ForeignKey | NoRelatedKeys
    | BadPrecomputed | DelegateGiven | StructuredMismatch | MetaWithoutStructure
    | ManualRegistration | DeviceMismatch | NoKinds

  datatype Result<+T> = Ok(value: T) | Err(why: Why)

  // ---------------------------------------------------------------- dispatch tables

  datatype Entry = Entry(key: DispatchKey, kernel: string)

  /** A line of a dispatch table: the line number entry, or keys that share a kernel. */
  datatype Line = LineMark | Shared(keys: seq<DispatchKey>, kernel: string)

  function EntriesOf(keys: seq<DispatchKey>, kernel: string): seq<Entry> {
    seq(|keys|, i requires 0 <= i < |keys| => Entry(keys[i], kernel))
  }

  /** All keys of a table in order, each with its kernel. */
  function Entries(lines: seq<Line>): seq<Entry> {
    if lines == [] then []
    else
      var last := lines[|lines| - 1];
      Entries(lines[..|lines| - 1]) + (if last.Shared? then EntriesOf(last.keys, last.kernel) else [])
  }

  predicate DistinctKeys(entries: seq<Entry>) {
    forall i, j :: 0 <= i < j < |entries| ==> entries[i].key != entries[j].key
  }

  function Lookup(entries: seq<Entry>, k: DispatchKey): Option<string> {
    if entries == [] then None
    else if entries[|entries| - 1].key == k then Some(entries[|entries| - 1].kernel)
    else Lookup(entries[..|entries| - 1], k)
  }

  predicate Has(entries: seq<Entry>, k: DispatchKey) {
    Lookup(entries, k).Some?
  }

  lemma {:induction false} LookupFinds(entries: seq<Entry>, k: DispatchKey)
    ensures Has(entries, k) <==> exists i :: 0 <= i < |entries| && entries[i].key == k
  {
    if entries != [] {
      var init := entries[..|entries| - 1];
      LookupFinds(init, k);
      assert forall i :: 0 <= i < |init| ==> init[i] == entries[i];
    }
  }

  lemma LookupNext(entries: seq<Entry>, e: Entry, k: DispatchKey)
    ensures Lookup(entries + [e], k) == if e.key == k then Some(e.kernel) else Lookup(entries, k)
  {
    assert (entries + [e])[..|entries|] == entries;
  }

  /** Give every key its own entry. It fails for the empty table and for a repeated key. */
  method FlattenDispatch(lines: seq<Line>) returns (r: Result<seq<Entry>>)
    ensures r.Ok? <==> lines != [] && DistinctKeys(Entries(lines))
    ensures r.Ok? ==> r.value == Entries(lines)
  {
    if lines == [] {
      return Err(EmptyDispatch);
    }
    var flat: seq<Entry> := [];
    hide DistinctKeys;
    for i := 0 to |lines|
      invariant flat == Entries(lines[..i]) && DistinctKeys(flat)
    {
      assert lines[..i + 1][..i] == lines[..i];
      if lines[i].Shared? {
        var added := AddShared(flat, lines[i].keys, lines[i].kernel);
        if added.None? {
          RepeatStays(lines, i + 1);
          return Err(RepeatedKey);
        }
        flat := added.value;
      }
    }
    assert lines[..|lines|] == lines;
    r := Ok(flat);
  }

  /** Add the keys of a line, unless one is there already. */
  method AddShared(flat: seq<Entry>, keys: seq<DispatchKey>, kernel: string) returns (r: Option<seq<Entry>>)
    requires DistinctKeys(flat)
    ensures r.Some? <==> DistinctKeys(flat + EntriesOf(keys, kernel))
    ensures r.Some? ==> r.value == flat + EntriesOf(keys, kernel)
  {
    ghost var all := flat + EntriesOf(keys, kernel);
    var added := flat;
    hide DistinctKeys;
    hide Lookup;
    assert all[..|flat|] == flat;
    for j := 0 to |keys|
      invariant added == all[..|flat| + j] && DistinctKeys(added)
    {
      var e := Entry(keys[j], kernel);
      assert all[|flat| + j] == e;
      assert all[..|flat| + j + 1] == added + [e];
      if Has(added, keys[j]) {
        RepeatedIn(all, |flat| + j);
        return None;
      }
      DistinctNext(added, e);
      added := added + [e];
    }
    assert all[..|all|] == all;
    return Some(added);
  }

  lemma DistinctNext(entries: seq<Entry>, e: Entry)
    requires DistinctKeys(entries) && !Has(entries, e.key)
    ensures DistinctKeys(entries + [e])
  {
    LookupFinds(entries, e.key);
  }

  lemma RepeatedIn(entries: seq<Entry>, n: nat)
    requires n < |entries| && Has(entries[..n], entries[n].key)
    ensures !DistinctKeys(entries)
  {
    LookupFinds(entries[..n], entries[n].key);
    var p :| 0 <= p < n && entries[..n][p].key == entries[n].key;
    assert entries[p].key == entries[n].key;
  }

  /** A key repeated among the first lines is repeated in the table. */
  lemma {:induction false} PrefixOfEntries(lines: seq<Line>, n: nat)
    requires n <= |lines|
    ensures Entries(lines[..n]) <= Entries(lines)
  {
    if n < |lines| {
      PrefixOfEntries(lines[..|lines| - 1], n);
      assert lines[..|lines| - 1][..n] == lines[..n];
    } else {
      assert lines[..n] == lines;
    }
  }

  lemma RepeatStays(lines: seq<Line>, n: nat)
    requires n <= |lines| && !DistinctKeys(Entries(lines[..n]))
    ensures !DistinctKeys(Entries(lines))
  {
    PrefixOfEntries(lines, n);
    var first := Entries(lines[..n]);
    var p, q :| 0 <= p < q < |first| && first[p].key == first[q].key;
    assert Entries(lines)[p] == first[p] && Entries(lines)[q] == first[q];
  }

  // ---------------------------------------------------------------- entries to merge

  datatype TorchOp = TorchOp(
    ufunc: bool, dispatch: Option<seq<Line>>, structured: bool, delegate: Option<string>,
    inherits: Option<string>, precomputed: Option<string>, deviceCheck: Option<string>, deviceGuard: Option<bool>)

  datatype MusaOp = MusaOp(
    dispatch: Option<seq<Line>>, structured: Option<bool>, delegate: Option<string>,
    inherits: Option<string>, precomputed: Option<string>, manualRegistration: bool,
    deviceCheck: Option<string>, deviceGuard: Option<bool>)

  datatype Processed = Processed(
    dispatch: map<DispatchKey, string>, structured: bool, delegate: Option<string>,
    inherits: Option<string>, precomputed: Option<string>, deviceCheck: Option<string>, deviceGuard: Option<bool>)

  /** The merged entry, the kind of each kernel, and whether torch's entry is structured. */
  datatype Merged = Merged(op: Processed, kinds: map<DispatchKey, ImplKind>, partOfGroup: bool)

  // ---------------------------------------------------------------- what the merge promises

  function TableOf(d: Option<seq<Line>>): seq<Entry> {
    if d.Some? then Entries(d.value) else []
  }

  /** The kernel that the musa entry itself names for a key. */
  function OwnKernel(m: MusaOp, k: DispatchKey): Option<string> {
    Lookup(TableOf(m.dispatch), k)
  }

  /** Torch uses the same kernel for a related key. */
  predicate SharesKernel(torch: seq<Entry>, k: DispatchKey, kernel: string) {
    RelatedKeys(k).Some? &&
    exists i :: 0 <= i < |RelatedKeys(k).value| && Lookup(torch, RelatedKeys(k).value[i]) == Some(kernel)
  }

  function UnstructuredKind(t: TorchOp, k: DispatchKey, kernel: string): ImplKind {
    if t.dispatch.Some? && SharesKernel(TableOf(t.dispatch), k, kernel) then Legacy else Customized
  }

  predicate OwnMeta(m: MusaOp) {
    m.inherits.Some? || m.precomputed.Some?
  }

  /** The kernel of the merged entry for a key: the musa entry's own, or torch's CUDA kernel
      for a structured operator that the musa entry leaves alone. */
  function KernelFor(t: TorchOp, m: MusaOp, k: DispatchKey): Option<string> {
    if k == PrivateUse1 && OwnKernel(m, k).None? && t.structured then Lookup(TableOf(t.dispatch), CUDA) else OwnKernel(m, k)
  }

  /** Where the kernel comes from. A structured delegate has a kind without a kernel. */
  function KindFor(t: TorchOp, m: MusaOp, k: DispatchKey): Option<ImplKind> {
    match OwnKernel(m, k)
    case Some(kernel) =>
      if k == PrivateUse1 && t.structured then
        Some(if m.structured != Some(false) && !OwnMeta(m) then LegacyMeta else Customized)
      else Some(UnstructuredKind(t, k, kernel))
    case None =>
      if k != PrivateUse1 then None
      else if t.structured then Some(if OwnMeta(m) then Customized else Legacy)
      else if t.delegate.Some? then Some(Legacy)
      else None
  }

  predicate StaysStructured(t: TorchOp, m: MusaOp) {
    t.structured && (OwnKernel(m, PrivateUse1).None? || m.structured != Some(false))
  }

  function DelegateAfter(t: TorchOp, m: MusaOp): Option<string> {
    if t.structured || OwnKernel(m, PrivateUse1).Some? then None else t.delegate
  }

  /** The device settings that the musa entry asks for, with the defaults for operators that
      are outside a structured group. */
  function DeviceCheckFor(t: TorchOp, m: MusaOp): Option<string> {
    if StaysStructured(t, m) || DelegateAfter(t, m).Some? || m.deviceCheck.Some? then m.deviceCheck else Some("NoCheck")
  }

  function DeviceGuardFor(t: TorchOp, m: MusaOp): Option<bool> {
    if StaysStructured(t, m) || DelegateAfter(t, m).Some? || m.deviceGuard.Some? then m.deviceGuard else Some(false)
  }

  predicate SameDevice(t: TorchOp, m: MusaOp) {
    && (DeviceCheckFor(t, m).None? || DeviceCheckFor(t, m).value == if t.deviceCheck.Some? then t.deviceCheck.value else "ExactSame")
    && (DeviceGuardFor(t, m).None? || DeviceGuardFor(t, m).value == if t.deviceGuard.Some? then t.deviceGuard.value else true)
  }

  ghost predicate TableOk(d: Option<seq<Line>>) {
    d.Some? ==> d.value != [] && DistinctKeys(Entries(d.value))
  }

  /** A structured operator has a CUDA kernel to fall back on, unless it is generated from
      loops; then the musa entry must bring its own. */
  ghost predicate TorchOk(t: TorchOp, m: MusaOp) {
    && (t.ufunc ==> t.structured && OwnKernel(m, PrivateUse1).Some?)
    && (t.structured && !t.ufunc ==> Lookup(TableOf(t.dispatch), CUDA).Some? && Lookup(TableOf(t.dispatch), CUDA) != Some(""))
  }

  predicate KeyOk(t: TorchOp, k: DispatchKey) {
    IsMusaKey(k) && (k == PrivateUse1 || t.dispatch.None? || RelatedKeys(k).Some?)
  }

  ghost predicate KeysOk(t: TorchOp, m: MusaOp) {
    forall k :: OwnKernel(m, k).Some? ==> KeyOk(t, k)
  }

  /** The musa entry changes the structure of the operator only in the ways provided for. */
  predicate StructureOk(t: TorchOp, m: MusaOp) {
    && (m.precomputed.Some? ==> t.structured && m.structured != Some(false) && OwnKernel(m, PrivateUse1).Some?)
    && m.delegate.None?
    && if OwnKernel(m, PrivateUse1).None? then
         (m.structured.None? || m.structured.value == t.structured) && (m.inherits.Some? ==> t.structured)
       else if t.structured then m.structured == Some(false) ==> m.inherits.None?
       else m.structured != Some(true) && m.inherits.None?
  }

  /** The merge of two entries is accepted. */
  ghost predicate MergeOk(t: TorchOp, m: MusaOp) {
    && TableOk(t.dispatch) && TableOk(m.dispatch)
    && TorchOk(t, m) && KeysOk(t, m) && StructureOk(t, m) && !m.manualRegistration
    && (forall k :: KernelFor(t, m, k).Some? && KindFor(t, m, k) == Some(Legacy) ==> SameDevice(t, m))
    && (exists k :: KindFor(t, m, k).Some?)
  }

  /** What a structured operator inherits and precomputes comes from one entry as a whole. */
  predicate MetaPromised(t: TorchOp, m: MusaOp, op: Processed) {
    if !StaysStructured(t, m) then op.inherits.None? && op.precomputed.None?
    else if OwnMeta(m) then op.inherits == m.inherits && op.precomputed == m.precomputed
    else op.inherits == t.inherits && op.precomputed == t.precomputed
  }

  ghost predicate KernelTable(t: TorchOp, m: MusaOp, dispatch: map<DispatchKey, string>) {
    forall k :: KernelFor(t, m, k) == if k in dispatch then Some(dispatch[k]) else None
  }

  ghost predicate KindTable(t: TorchOp, m: MusaOp, kinds: map<DispatchKey, ImplKind>) {
    forall k :: KindFor(t, m, k) == if k in kinds then Some(kinds[k]) else None
  }

  /** Kernels, kinds and structure are the ones promised. */
  ghost predicate KernelsPromised(t: TorchOp, m: MusaOp, op: Processed, kinds: map<DispatchKey, ImplKind>) {
    && KernelTable(t, m, op.dispatch) && KindTable(t, m, kinds)
    && op.structured == StaysStructured(t, m) && op.delegate == DelegateAfter(t, m)
    && MetaPromised(t, m, op)
  }

  /** The merged entry is the one promised. */
  ghost predicate Promised(t: TorchOp, m: MusaOp, r: Merged) {
    && KernelsPromised(t, m, r.op, r.kinds)
    && r.op.deviceCheck == (if DeviceCheckFor(t, m).Some? then DeviceCheckFor(t, m) else t.deviceCheck)
    && r.op.deviceGuard == (if DeviceGuardFor(t, m).Some? then DeviceGuardFor(t, m) else t.deviceGuard)
    && r.partOfGroup == (t.structured || t.delegate.Some?)
  }

  /** Every key has a kind and is a musa key; the entry is never structured and a delegate at
      once; only a delegate is without kernels, and a structured entry has the structured one. */
  ghost predicate Consistent(r: Merged) {
    && (forall k :: k in r.kinds ==> IsMusaKey(k))
    && (forall k :: k in r.op.dispatch ==> k in r.kinds)
    && (forall k :: k in r.kinds && k !in r.op.dispatch <==> k == PrivateUse1 && r.op.delegate.Some?)
    && !(r.op.structured && r.op.delegate.Some?)
    && (r.op.structured ==> PrivateUse1 in r.op.dispatch)
    && (r.op.dispatch == map[] ==> r.op.delegate.Some?)
  }

  // ---------------------------------------------------------------- the steps of the merge

  /** Does torch use the kernel for a related key? It is an error to ask where no keys are related. */
  method ShareUnstructuredNativeKernel(t: TorchOp, k: DispatchKey, kernel: string) returns (r: Result<bool>)
    ensures r.Err? <==> t.dispatch.Some? && RelatedKeys(k).None?
    ensures r.Ok? ==> r.value == (t.dispatch.Some? && SharesKernel(TableOf(t.dispatch), k, kernel))
    ensures r.Err? ==> r.why == NoRelatedKeys
  {
    if t.dispatch.None? {
      return Ok(false);
    }
    if RelatedKeys(k).None? {
      return Err(NoRelatedKeys);
    }
    var related := RelatedKeys(k).value;
    for i := 0 to |related|
      invariant forall j :: 0 <= j < i ==> Lookup(TableOf(t.dispatch), related[j]) != Some(kernel)
    {
      if Lookup(TableOf(t.dispatch), related[i]) == Some(kernel) {
        return Ok(true);
      }
    }
    return Ok(false);
  }

  /** The kinds and kernels of the first entries other than those for the structured key. */
  ghost predicate Sorted(t: TorchOp, entries: seq<Entry>, dispatch: map<DispatchKey, string>, kinds: map<DispatchKey, ImplKind>) {
    && (forall k :: k in dispatch <==> k != PrivateUse1 && Has(entries, k))
    && (forall k :: k in dispatch ==> Some(dispatch[k]) == Lookup(entries, k))
    && kinds.Keys == dispatch.Keys
    && (forall k :: k in dispatch ==> kinds[k] == UnstructuredKind(t, k, dispatch[k]))
  }

  lemma SortedNext(t: TorchOp, entries: seq<Entry>, e: Entry, dispatch: map<DispatchKey, string>, kinds: map<DispatchKey, ImplKind>)
    requires Sorted(t, entries, dispatch, kinds)
    ensures e.key == PrivateUse1 ==> Sorted(t, entries + [e], dispatch, kinds)
    ensures e.key != PrivateUse1 ==>
              Sorted(t, entries + [e], dispatch[e.key := e.kernel], kinds[e.key := UnstructuredKind(t, e.key, e.kernel)])
  {
    hide Lookup;
    hide UnstructuredKind;
    forall k
      ensures Lookup(entries + [e], k) == if e.key == k then Some(e.kernel) else Lookup(entries, k)
    {
      LookupNext(entries, e, k);
    }
  }

  ghost predicate AllKeysOk(t: TorchOp, entries: seq<Entry>) {
    forall i :: 0 <= i < |entries| ==> KeyOk(t, entries[i].key)
  }

  /** Take over the musa kernels for the keys other than the structured one. */
  method SortKernels(t: TorchOp, entries: seq<Entry>)
      returns (r: Result<bool>, dispatch: map<DispatchKey, string>, kinds: map<DispatchKey, ImplKind>)
    ensures r.Ok? <==> AllKeysOk(t, entries)
    ensures r.Ok? ==> Sorted(t, entries, dispatch, kinds)
  {
    dispatch, kinds := map[], map[];
    assert Sorted(t, entries[..0], dispatch, kinds);
    hide SharesKernel;
    hide Sorted;
    for i := 0 to |entries|
      invariant Sorted(t, entries[..i], dispatch, kinds)
      invariant forall j :: 0 <= j < i ==> KeyOk(t, entries[j].key)
    {
      var e := entries[i];
      assert entries[..i + 1] == entries[..i] + [e];
      SortedNext(t, entries[..i], e, dispatch, kinds);
      if !IsMusaKey(e.key) {
        return Err(ForeignKey), dispatch, kinds;
      }
      if e.key != PrivateUse1 {
        var shares := ShareUnstructuredNativeKernel(t, e.key, e.kernel);
        if shares.Err? {
          return shares, dispatch, kinds;
        }
        dispatch := dispatch[e.key := e.kernel];
        kinds := kinds[e.key := if shares.value then Legacy else Customized];
      }
    }
    assert entries[..|entries|] == entries;
    r := Ok(true);
  }

  function AsMap(entries: seq<Entry>): map<DispatchKey, string> {
    if entries == [] then map[] else AsMap(entries[..|entries| - 1])[entries[|entries| - 1].key := entries[|entries| - 1].kernel]
  }

  lemma {:induction false} AsMapLooksUp(entries: seq<Entry>, k: DispatchKey)
    ensures Lookup(entries, k) == if k in AsMap(entries) then Some(AsMap(entries)[k]) else None
  {
    if entries != [] {
      AsMapLooksUp(entries[..|entries| - 1], k);
    }
  }

  /** Remove the musa keys but the structured one. At most that one is left. */
  method PopOtherKeys(t: TorchOp, entries: seq<Entry>) returns (left: map<DispatchKey, string>)
    requires AllKeysOk(t, entries)
    ensures left == match Lookup(entries, PrivateUse1) case Some(kernel) => map[PrivateUse1 := kernel] case None => map[]
    ensures |left| == 0 || (|left| == 1 && PrivateUse1 in left)
  {
    left := AsMap(entries);
    for i := 0 to |MusaKeys|
      invariant left.Keys <= AsMap(entries).Keys
      invariant forall k :: k in left ==> left[k] == AsMap(entries)[k]
      invariant forall j :: 0 < j < i ==> MusaKeys[j] !in left
      invariant PrivateUse1 in AsMap(entries) ==> PrivateUse1 in left
    {
      if MusaKeys[i] != PrivateUse1 {
        left := left - {MusaKeys[i]};
      }
    }
    AsMapLooksUp(entries, PrivateUse1);
    forall k | k in left
      ensures k == PrivateUse1
    {
      AsMapLooksUp(entries, k);
      LookupFinds(entries, k);
      var j :| 0 <= j < |MusaKeys| && MusaKeys[j] == k;
    }
  }

  method FindCudaKernel(t: TorchOp) returns (kernel: Option<string>)
    requires TableOk(t.dispatch)
    ensures kernel == Lookup(TableOf(t.dispatch), CUDA)
  {
    var entries := TableOf(t.dispatch);
    LookupFinds(entries, CUDA);
    for i := 0 to |entries|
      invariant forall j :: 0 <= j < i ==> entries[j].key != CUDA
    {
      if entries[i].key == CUDA {
        LookupOnly(entries, i);
        return Some(entries[i].kernel);
      }
    }
    return None;
  }

  lemma {:induction false} LookupOnly(entries: seq<Entry>, i: nat)
    requires DistinctKeys(entries) && i < |entries|
    ensures Lookup(entries, entries[i].key) == Some(entries[i].kernel)
  {
    if i < |entries| - 1 {
      LookupOnly(entries[..|entries| - 1], i);
    }
  }

  /** Decide whether the operator stays structured, and the kind of its structured kernel. */
  method DecideStructure(t: TorchOp, m: MusaOp, cuda: Option<string>, left: map<DispatchKey, string>, start: Processed)
      returns (r: Result<Processed>, kind: Option<ImplKind>)
    requires left == match OwnKernel(m, PrivateUse1) case Some(kernel) => map[PrivateUse1 := kernel] case None => map[]
    requires left == map[] && t.structured ==> cuda.Some? && cuda == Lookup(TableOf(t.dispatch), CUDA)
    requires start.structured == t.structured && start.delegate == t.delegate && start.inherits == t.inherits && start.precomputed == t.precomputed
    requires PrivateUse1 !in start.dispatch
    ensures r.Ok? <==> StructureOk(t, m)
    ensures r.Ok? ==> kind == KindFor(t, m, PrivateUse1)
    ensures r.Ok? ==> r.value == start.(structured := StaysStructured(t, m), delegate := DelegateAfter(t, m),
                                        inherits := r.value.inherits, precomputed := r.value.precomputed,
                                        dispatch := match KernelFor(t, m, PrivateUse1)
                                                    case Some(kernel) => start.dispatch[PrivateUse1 := kernel]
                                                    case None => start.dispatch)
    ensures r.Ok? ==> MetaPromised(t, m, r.value)
  {
    var op := start;
    kind := None;
    assert OwnKernel(m, PrivateUse1).Some? <==> PrivateUse1 in left;
    assert left != map[] ==> left[PrivateUse1] == OwnKernel(m, PrivateUse1).value &&
                             start.dispatch + left == start.dispatch[PrivateUse1 := left[PrivateUse1]];
    if m.precomputed.Some? && !(t.structured && m.structured != Some(false) && left != map[]) {
      return Err(BadPrecomputed), kind;
    }
    if m.delegate.Some? {
      return Err(DelegateGiven), kind;
    }
    if left == map[] {
      if m.structured.Some? && m.structured.value != t.structured {
        return Err(StructuredMismatch), kind;
      }
      if t.structured {
        op := op.(delegate := None);
        if m.inherits.None? && m.precomputed.None? {
          kind := Some(Legacy);
        } else {
          kind := Some(Customized);
          op := op.(inherits := m.inherits, precomputed := m.precomputed);
        }
        op := op.(dispatch := op.dispatch[PrivateUse1 := cuda.value]);
      } else {
        if m.inherits.Some? || m.precomputed.Some? {
          return Err(MetaWithoutStructure), kind;
        }
        op := op.(inherits := None, precomputed := None);
        if t.delegate.Some? {
          kind := Some(Legacy);
        } else {
          op := op.(structured := false, delegate := None);
        }
      }
    } else {
      op := op.(dispatch := op.dispatch + left, delegate := None);
      if t.structured && m.structured != Some(false) {
        if m.inherits.None? && m.precomputed.None? {
          kind := Some(LegacyMeta);
        } else {
          kind := Some(Customized);
          op := op.(inherits := m.inherits, precomputed := m.precomputed);
        }
      } else {
        if m.inherits.Some? || m.precomputed.Some? {
          return Err(MetaWithoutStructure), kind;
        }
        if t.structured {
          kind := Some(Customized);
        } else {
          if m.structured == Some(true) {
            return Err(MetaWithoutStructure), kind;
          }
          var shares := ShareUnstructuredNativeKernel(t, PrivateUse1, left[PrivateUse1]);
          kind := Some(if shares.value then Legacy else Customized);
        }
        op := op.(structured := false, inherits := None, precomputed := None);
      }
    }
    r := Ok(op);
  }

  /** Torch's own kernels may be used only under torch's own device settings. */
  method CheckDevices(t: TorchOp, m: MusaOp, op: Processed, kinds: map<DispatchKey, ImplKind>) returns (r: Result<Processed>)
    requires op.structured == StaysStructured(t, m) && op.delegate == DelegateAfter(t, m)
    requires op.deviceCheck == t.deviceCheck && op.deviceGuard == t.deviceGuard
    requires op.dispatch.Keys <= kinds.Keys
    ensures r.Ok? <==> forall k :: k in op.dispatch && kinds[k] == Legacy ==> SameDevice(t, m)
    ensures r.Ok? ==> r.value == op.(
              deviceCheck := if DeviceCheckFor(t, m).Some? then DeviceCheckFor(t, m) else t.deviceCheck,
              deviceGuard := if DeviceGuardFor(t, m).Some? then DeviceGuardFor(t, m) else t.deviceGuard)
  {
    var check, guard := m.deviceCheck, m.deviceGuard;
    if !((t.structured || t.delegate.Some?) && (op.structured || op.delegate.Some?)) {
      check := if check.Some? then check else Some("NoCheck");
      guard := if guard.Some? then guard else Some(false);
    }
    var torchCheck := if op.deviceCheck.Some? then op.deviceCheck.value else "ExactSame";
    var torchGuard := if op.deviceGuard.Some? then op.deviceGuard.value else true;
    var same := (check.None? || check.value == torchCheck) && (guard.None? || guard.value == torchGuard);
    assert same == SameDevice(t, m);
    var todo := op.dispatch.Keys;
    while todo != {}
      invariant todo <= op.dispatch.Keys
      invariant forall k :: k in op.dispatch && k !in todo && kinds[k] == Legacy ==> same
      decreases todo
    {
      var k :| k in todo;
      if kinds[k] == Legacy && !same {
        return Err(DeviceMismatch);
      }
      todo := todo - {k};
    }
    var result := op;
    if check.Some? {
      result := result.(deviceCheck := check);
    }
    if guard.Some? {
      result := result.(deviceGuard := guard);
    }
    r := Ok(result);
  }

  // ---------------------------------------------------------------- the merge

  /** Read both tables and find the CUDA kernel that a structured operator falls back on. */
  method ReadTables(t: TorchOp, m: MusaOp) returns (r: Result<Option<string>>)
    ensures r.Ok? <==> TableOk(t.dispatch) && TableOk(m.dispatch) && TorchOk(t, m)
    ensures r.Ok? && t.structured && !t.ufunc ==> r.value == Lookup(TableOf(t.dispatch), CUDA)
  {
    hide Entries;
    hide DistinctKeys;
    hide Lookup;
    if t.dispatch.Some? {
      var flat := FlattenDispatch(t.dispatch.value);
      if flat.Err? {
        return Err(flat.why);
      }
    }
    if m.dispatch.Some? {
      var flat := FlattenDispatch(m.dispatch.value);
      if flat.Err? {
        return Err(flat.why);
      }
    }
    if t.ufunc && !(t.structured && Has(TableOf(m.dispatch), PrivateUse1)) {
      return Err(UfuncNeedsKernel);
    }
    var cuda: Option<string> := None;
    if t.structured && !t.ufunc {
      cuda := FindCudaKernel(t);
      if cuda.None? || cuda.value == "" {
        return Err(NoCudaKernel);
      }
    }
    r := Ok(cuda);
  }

  /** Merge kernels and structure. The assertion that at most the structured key is left over
      always holds. */
  method MergeKernels(t: TorchOp, m: MusaOp, cuda: Option<string>) returns (r: Result<Processed>, kinds: map<DispatchKey, ImplKind>)
    requires TorchOk(t, m) && (t.structured && !t.ufunc ==> cuda == Lookup(TableOf(t.dispatch), CUDA))
    ensures r.Ok? <==> KeysOk(t, m) && StructureOk(t, m)
    ensures r.Ok? ==> KernelsPromised(t, m, r.value, kinds)
    ensures r.Ok? ==> r.value.deviceCheck == t.deviceCheck && r.value.deviceGuard == t.deviceGuard
  {
    CudaKernelThere(t, m);
    AllKeysAreOk(t, m);
    hide Entries;
    hide TorchOk;
    hide KeysOk;
    hide AllKeysOk;
    hide Sorted;
    hide StructureOk;
    hide MetaPromised;
    hide KernelFor;
    hide KindFor;
    hide StaysStructured;
    hide DelegateAfter;
    hide KernelTable;
    hide KindTable;
    hide Lookup;
    var own := TableOf(m.dispatch);
    var sorted, dispatch;
    sorted, dispatch, kinds := SortKernels(t, own);
    if sorted.Err? {
      return Err(sorted.why), kinds;
    }
    var left := PopOtherKeys(t, own);
    var start := Processed(dispatch, t.structured, t.delegate, t.inherits, t.precomputed, t.deviceCheck, t.deviceGuard);
    SortedWithout(t, own, dispatch, kinds, None);
    var kind;
    r, kind := DecideStructure(t, m, cuda, left, start);
    if r.Err? {
      return;
    }
    SortedWithout(t, own, dispatch, kinds, kind);
    kinds := if kind.Some? then kinds[PrivateUse1 := kind.value] else kinds;
    KindsAreSet(t, m, dispatch, kinds, r.value.dispatch);
  }

  lemma CudaKernelThere(t: TorchOp, m: MusaOp)
    requires TorchOk(t, m)
    ensures t.structured && OwnKernel(m, PrivateUse1).None? ==> !t.ufunc && Lookup(TableOf(t.dispatch), CUDA).Some?
  {
  }

  lemma SortedWithout(t: TorchOp, entries: seq<Entry>, dispatch: map<DispatchKey, string>, kinds: map<DispatchKey, ImplKind>, kind: Option<ImplKind>)
    requires Sorted(t, entries, dispatch, kinds)
    ensures PrivateUse1 !in dispatch
    ensures var all := if kind.Some? then kinds[PrivateUse1 := kind.value] else kinds;
            && all.Keys - {PrivateUse1} == dispatch.Keys && Sorted(t, entries, dispatch, all - {PrivateUse1})
            && kind == if PrivateUse1 in all then Some(all[PrivateUse1]) else None
  {
    var all := if kind.Some? then kinds[PrivateUse1 := kind.value] else kinds;
    assert all - {PrivateUse1} == kinds;
  }

  /** Merge a torch entry with the musa entry for it. The merge is accepted exactly when the
      input checks pass; the merged entry is the promised one and consistent. */
  method MergeOps(t: TorchOp, m: MusaOp) returns (r: Result<Merged>)
    ensures r.Ok? <==> MergeOk(t, m)
    ensures r.Ok? ==> Promised(t, m, r.value) && Consistent(r.value)
  {
    hide TableOk;
    hide TorchOk;
    hide KeysOk;
    hide SameDevice;
    hide StructureOk;
    hide MetaPromised;
    hide Lookup;
    var cuda := ReadTables(t, m);
    if cuda.Err? {
      return Err(cuda.why);
    }
    var op, kinds := MergeKernels(t, m, cuda.value);
    if op.Err? {
      return Err(op.why);
    }
    if m.manualRegistration {
      return Err(ManualRegistration);
    }
    KernelsHaveKinds(t, m);
    hide KernelFor;
    hide KindFor;
    var checked := CheckDevices(t, m, op.value, kinds);
    if checked.Err? {
      return Err(checked.why);
    }
    if kinds == map[] {
      return Err(NoKinds);
    }
    assert exists k :: k in kinds;
    r := Ok(Merged(checked.value, kinds, t.structured || t.delegate.Some?));
    MetaOfSameOp(t, m, op.value, r.value.op);
    MergedIsConsistent(t, m, r.value);
    hide Consistent;
  }

  lemma KernelsHaveKinds(t: TorchOp, m: MusaOp)
    ensures forall k :: KernelFor(t, m, k).Some? ==> KindFor(t, m, k).Some?
  {
    hide Lookup;
  }

  lemma MetaOfSameOp(t: TorchOp, m: MusaOp, op: Processed, other: Processed)
    requires MetaPromised(t, m, op) && op.inherits == other.inherits && op.precomputed == other.precomputed
    ensures MetaPromised(t, m, other)
  {
  }

  lemma AllKeysAreOk(t: TorchOp, m: MusaOp)
    ensures AllKeysOk(t, TableOf(m.dispatch)) <==> KeysOk(t, m)
  {
    var entries := TableOf(m.dispatch);
    forall k
      ensures OwnKernel(m, k).Some? <==> exists i :: 0 <= i < |entries| && entries[i].key == k
    {
      LookupFinds(entries, k);
    }
  }

  /** The tables of kernels and kinds are the promised ones. */
  lemma KindsAreSet(t: TorchOp, m: MusaOp, dispatch: map<DispatchKey, string>, kinds: map<DispatchKey, ImplKind>, full: map<DispatchKey, string>)
    requires TorchOk(t, m)
    requires kinds.Keys - {PrivateUse1} == dispatch.Keys && Sorted(t, TableOf(m.dispatch), dispatch, kinds - {PrivateUse1})
    requires KindFor(t, m, PrivateUse1) == if PrivateUse1 in kinds then Some(kinds[PrivateUse1]) else None
    requires full == match KernelFor(t, m, PrivateUse1) case Some(kernel) => dispatch[PrivateUse1 := kernel] case None => dispatch
    ensures KernelTable(t, m, full) && KindTable(t, m, kinds)
    ensures full.Keys <= kinds.Keys
  {
    hide Lookup;
    hide UnstructuredKind;
    forall k
      ensures KindFor(t, m, k) == if k in kinds then Some(kinds[k]) else None
    {
      if k != PrivateUse1 {
        assert k in kinds <==> k in kinds.Keys - {PrivateUse1};
        assert k in dispatch <==> Has(TableOf(m.dispatch), k);
        assert k in kinds ==> (kinds - {PrivateUse1})[k] == kinds[k];
      }
    }
  }

  // ---------------------------------------------------------------- what follows for the merged entry

  lemma MergedIsConsistent(t: TorchOp, m: MusaOp, r: Merged)
    requires MergeOk(t, m) && Promised(t, m, r)
    ensures Consistent(r)
  {
    KernelsHaveKinds(t, m);
    hide Lookup;
    hide SameDevice;
    hide MetaPromised;
    hide UnstructuredKind;
    forall k
      ensures k in r.kinds ==> IsMusaKey(k)
      ensures k in r.op.dispatch ==> k in r.kinds
      ensures k in r.kinds && k !in r.op.dispatch <==> k == PrivateUse1 && r.op.delegate.Some?
    {
      assert KindFor(t, m, k).Some? <==> k in r.kinds;
      assert KernelFor(t, m, k).Some? <==> k in r.op.dispatch;
    }
    assert KernelFor(t, m, PrivateUse1).Some? <==> PrivateUse1 in r.op.dispatch;
    var k :| KindFor(t, m, k).Some?;
    assert k in r.kinds;
  }

  // ---------------------------------------------------------------- namespaces

  datatype Metadata = Metadata(kernel: string, structured: bool, cppNamespace: string)

  type BackendIndices = map<DispatchKey, map<string, Metadata>>

  predicate EndsWith(s: string, suffix: string) {
    |suffix| <= |s| && s[|s| - |suffix|..] == suffix
  }

  function NamespaceOf(kind: ImplKind): string {
    if kind == Legacy then "at::native" else "at::musa"
  }

  /** Put the kernels of a new operator into their namespaces. `None` is a failed assertion. */
  method OverrideBackends(index: BackendIndices, kinds: map<DispatchKey, ImplKind>) returns (r: Option<BackendIndices>)
    ensures r.Some? <==> forall k :: k in index ==> IsMusaKey(k) && (index[k] != map[] ==> k in kinds)
    ensures r.Some? ==> forall k :: k in r.value <==> k in index && index[k] != map[]
    ensures r.Some? ==> forall k :: k in r.value ==> k in kinds && Renamed(index[k], kinds[k], r.value[k])
  {
    var processed: BackendIndices := map[];
    var todo := index.Keys;
    hide Renamed;
    while todo != {}
      invariant todo <= index.Keys
      invariant forall k :: k in index && k !in todo ==> IsMusaKey(k) && (index[k] != map[] ==> k in kinds)
      invariant forall k :: k in processed <==> k in index && k !in todo && index[k] != map[]
      invariant forall k :: k in processed ==> k in kinds && Renamed(index[k], kinds[k], processed[k])
      decreases todo
    {
      var k :| k in todo;
      if !IsMusaKey(k) {
        return None;
      }
      if index[k] != map[] {
        if k !in kinds {
          return None;
        }
        var row := RenameAll(index[k], kinds[k]);
        processed := processed[k := row];
      }
      todo := todo - {k};
    }
    r := Some(processed);
  }

  /** The same kernels, in the namespace of their kind. */
  ghost predicate Renamed(row: map<string, Metadata>, kind: ImplKind, r: map<string, Metadata>) {
    r.Keys == row.Keys && forall name :: name in row ==> r[name] == row[name].(cppNamespace := NamespaceOf(kind))
  }

  method RenameAll(row: map<string, Metadata>, kind: ImplKind) returns (r: map<string, Metadata>)
    ensures Renamed(row, kind, r)
  {
    r := map[];
    var todo := row.Keys;
    while todo != {}
      invariant todo <= row.Keys && r.Keys == row.Keys - todo
      invariant forall name :: name in r ==> r[name] == row[name].(cppNamespace := NamespaceOf(kind))
      decreases todo
    {
      var name :| name in todo;
      r := r[name := row[name].(cppNamespace := NamespaceOf(kind))];
      todo := todo - {name};
    }
  }

  /** The backends that a merged entry is parsed into: one per kernel, and an implicit composite
      kernel for an entry with neither kernels nor a delegate. */
  function Parsed(op: Processed, name: string): BackendIndices {
    if op.dispatch == map[] && op.delegate.None? then
      map[OtherKey("CompositeImplicitAutograd") := map[name := Metadata(name, false, "at::musa")]]
    else map k | k in op.dispatch :: map[name := Metadata(op.dispatch[k], op.structured && k == PrivateUse1, "at::musa")]
  }

  /** The namespace of a kernel, or of one that is missing; `None` is the assertion on its ending. */
  function KernelNamespace(metadata: Option<Metadata>): Option<string> {
    var ns := if metadata.Some? then metadata.value.cppNamespace else "at::musa";
    if EndsWith(ns, "::native") || EndsWith(ns, "::musa") then Some(ns) else None
  }

  lemma NativeEnds()
    ensures EndsWith("at::native", "::native")
  {
    assert "at::native"[2..] == "::native";
  }

  lemma MusaEnds()
    ensures EndsWith("at::musa", "::musa")
  {
    assert "at::musa"[2..] == "::musa";
  }

  lemma NamespacesDiffer()
    ensures "at::native" != "at::musa"
  {
    assert |"at::native"| != |"at::musa"|;
  }

  lemma NamespaceAnswered(metadata: Metadata, kind: ImplKind)
    requires metadata.cppNamespace == NamespaceOf(kind)
    ensures KernelNamespace(Some(metadata)) == Some(NamespaceOf(kind)) && KernelNamespace(None) == Some("at::musa")
    ensures NamespaceOf(kind) == "at::native" <==> kind == Legacy
  {
    NativeEnds();
    MusaEnds();
    NamespacesDiffer();
    hide EndsWith;
  }

  /** A merged entry is parsed into musa backends that have kinds, one for each kernel. */
  lemma MergedParses(t: TorchOp, m: MusaOp, r: Merged, name: string)
    requires MergeOk(t, m) && Promised(t, m, r)
    ensures var parsed := Parsed(r.op, name);
            && parsed.Keys == r.op.dispatch.Keys
            && forall k :: k in parsed ==>
                 && IsMusaKey(k) && k in r.kinds && KindFor(t, m, k) == Some(r.kinds[k])
                 && name in parsed[k] && parsed[k][name].kernel == r.op.dispatch[k]
  {
    MergedIsConsistent(t, m, r);
    hide MergeOk;
    hide KindFor;
    hide KernelFor;
  }

  /** For every merged entry the backends can be put into namespaces, and every later question for
      a namespace is answered, with `at::native` for torch's own kernels and no others. */
  method NamespacesOfMerged(t: TorchOp, m: MusaOp, r: Merged, name: string) returns (indices: BackendIndices)
    requires MergeOk(t, m) && Promised(t, m, r)
    ensures indices.Keys == r.op.dispatch.Keys
    ensures forall k :: k in indices ==> name in indices[k] && indices[k][name].kernel == r.op.dispatch[k]
    ensures forall k :: k in indices ==> KernelNamespace(Some(indices[k][name])).Some?
    ensures forall k :: k in indices ==>
              (KernelNamespace(Some(indices[k][name])) == Some("at::native") <==> KindFor(t, m, k) == Some(Legacy))
    ensures KernelNamespace(None) == Some("at::musa")
  {
    hide MergeOk;
    hide Promised;
    hide KindFor;
    hide KernelFor;
    hide Parsed;
    MergedParses(t, m, r, name);
    var parsed := Parsed(r.op, name);
    hide KernelNamespace;
    hide NamespaceOf;
    var done := OverrideBackends(parsed, r.kinds);
    indices := done.value;
    NamespaceAnswered(Metadata(name, false, NamespaceOf(Legacy)), Legacy);
    forall k | k in indices
      ensures KernelNamespace(Some(indices[k][name])).Some?
      ensures KernelNamespace(Some(indices[k][name])) == Some("at::native") <==> KindFor(t, m, k) == Some(Legacy)
    {
      NamespaceAnswered(indices[k][name], r.kinds[k]);
    }
  }

  // ---------------------------------------------------------------- related keys by name

  /** A key's name is that of its family followed by that of its device, as `SparseCsrCUDA` is. */
  datatype Family = Dense | Quantized | Sparse | SparseCsr | NestedTensor | Autograd | Composite | Unknown(name: string)
  datatype KeyDevice = OnMusa | OnCPU | OnCUDA | Anywhere

  function FamilyOf(k: DispatchKey): Family {
    match k
    case PrivateUse1 | CPU | CUDA => Dense
    case QuantizedPrivateUse1 | QuantizedCPU | QuantizedCUDA => Quantized
    case SparsePrivateUse1 | SparseCPU | SparseCUDA => Sparse
    case SparseCsrPrivateUse1 | SparseCsrCPU | SparseCsrCUDA => SparseCsr
    case NestedTensorPrivateUse1 | NestedTensorCPU | NestedTensorCUDA => NestedTensor
    case AutogradPrivateUse1 | AutogradCPU | AutogradCUDA => Autograd
    case CompositeExplicitAutograd => Composite
    case OtherKey(name) => Unknown(name)
  }

  function DeviceOf(k: DispatchKey): KeyDevice {
    match k
    case PrivateUse1 | QuantizedPrivateUse1 | SparsePrivateUse1 => OnMusa
    case SparseCsrPrivateUse1 | NestedTensorPrivateUse1 | AutogradPrivateUse1 => OnMusa
    case CPU | QuantizedCPU | SparseCPU | SparseCsrCPU | NestedTensorCPU | AutogradCPU => OnCPU
    case CUDA | QuantizedCUDA | SparseCUDA | SparseCsrCUDA | NestedTensorCUDA | AutogradCUDA => OnCUDA
    case _ => Anywhere
  }

  lemma RelatedDevices(k: DispatchKey)
    requires RelatedKeys(k).Some?
    ensures DeviceOf(k) == OnMusa && |RelatedKeys(k).value| == 2
    ensures DeviceOf(RelatedKeys(k).value[0]) == OnCPU && DeviceOf(RelatedKeys(k).value[1]) == OnCUDA
  {
  }

  lemma RelatedFamily(k: DispatchKey, i: nat)
    requires RelatedKeys(k).Some? && i < |RelatedKeys(k).value|
    ensures FamilyOf(RelatedKeys(k).value[i]) == FamilyOf(k)
  {
  }

  lemma FamilyMember(k: DispatchKey, x: DispatchKey)
    requires RelatedKeys(k).Some?
    ensures x in RelatedKeys(k).value <==> FamilyOf(x) == FamilyOf(k) && DeviceOf(x) in {OnCPU, OnCUDA}
  {
    var two := RelatedKeys(k).value;
    RelatedDevices(k);
    RelatedFamily(k, 0);
    RelatedFamily(k, 1);
    assert x in two <==> x == two[0] || x == two[1];
    hide RelatedKeys;
    if FamilyOf(x) == FamilyOf(k) && DeviceOf(x) in {OnCPU, OnCUDA} {
      assert x == if DeviceOf(x) == OnCPU then two[0] else two[1];
    }
  }

  lemma RelatedExist(k: DispatchKey)
    requires IsMusaKey(k)
    ensures RelatedKeys(k).None? <==> k == CompositeExplicitAutograd
  {
  }

  /** The related keys of a musa key are the CPU and the CUDA key of its family, in that order, and no
      others; only the composite key has none. */
  lemma RelatedByName(k: DispatchKey, x: DispatchKey)
    requires IsMusaKey(k)
    ensures RelatedKeys(k).None? <==> k == CompositeExplicitAutograd
    ensures RelatedKeys(k).Some? ==> DeviceOf(k) == OnMusa && |RelatedKeys(k).value| == 2
    ensures RelatedKeys(k).Some? ==> DeviceOf(RelatedKeys(k).value[0]) == OnCPU && DeviceOf(RelatedKeys(k).value[1]) == OnCUDA
    ensures RelatedKeys(k).Some? ==>
              (x in RelatedKeys(k).value <==> FamilyOf(x) == FamilyOf(k) && DeviceOf(x) in {OnCPU, OnCUDA})
  {
    RelatedExist(k);
    if RelatedKeys(k).Some? {
      RelatedDevices(k);
      FamilyMember(k, x);
    }
    hide RelatedKeys;
    hide FamilyOf;
    hide DeviceOf;
    hide IsMusaKey;
  }

  /** With distinct keys, the kernel looked up is the one in the table. */
  lemma {:induction false} LookupIsEntry(entries: seq<Entry>, k: DispatchKey, kernel: string)
    requires DistinctKeys(entries)
    ensures Lookup(entries, k) == Some(kernel) <==> Entry(k, kernel) in entries
  {
    if entries != [] {
      var init, last := entries[..|entries| - 1], entries[|entries| - 1];
      LookupIsEntry(init, k, kernel);
      assert entries == init + [last];
      if last.key == k {
        assert forall i :: 0 <= i < |init| ==> init[i] == entries[i];
      }
    }
  }

  lemma TableDistinct(d: Option<seq<Line>>)
    requires TableOk(d)
    ensures DistinctKeys(TableOf(d))
  {
  }

  lemma MergedTables(t: TorchOp, m: MusaOp)
    requires MergeOk(t, m)
    ensures TableOk(t.dispatch) && TableOk(m.dispatch)
  {
    hide KernelFor;
    hide KindFor;
    hide SameDevice;
  }

  /** Every kernel of the musa entry is in the merged one, and nothing else is but torch's CUDA
      kernel of a structured operator that the musa entry leaves alone. */
  lemma MergedKernels(t: TorchOp, m: MusaOp, r: Merged, k: DispatchKey)
    requires MergeOk(t, m) && Promised(t, m, r)
    ensures forall kernel :: Entry(k, kernel) in TableOf(m.dispatch) ==> k in r.op.dispatch && r.op.dispatch[k] == kernel
    ensures k in r.op.dispatch ==>
              || Entry(k, r.op.dispatch[k]) in TableOf(m.dispatch)
              || (k == PrivateUse1 && t.structured && Entry(CUDA, r.op.dispatch[k]) in TableOf(t.dispatch))
  {
    MergedTables(t, m);
    TableDistinct(t.dispatch);
    TableDistinct(m.dispatch);
    hide MergeOk;
    hide Lookup;
    hide TableOf;
    hide DistinctKeys;
    hide KindFor;
    hide MetaPromised;
    assert KernelFor(t, m, k) == if k in r.op.dispatch then Some(r.op.dispatch[k]) else None;
    hide Promised;
    forall kernel | Entry(k, kernel) in TableOf(m.dispatch)
      ensures k in r.op.dispatch && r.op.dispatch[k] == kernel
    {
      LookupIsEntry(TableOf(m.dispatch), k, kernel);
    }
    if k in r.op.dispatch {
      LookupIsEntry(TableOf(m.dispatch), k, r.op.dispatch[k]);
      LookupIsEntry(TableOf(t.dispatch), CUDA, r.op.dispatch[k]);
    }
  }

  /** Torch's table has this kernel for key `x` of the family. */
  ghost predicate UsedAt(t: TorchOp, k: DispatchKey, kernel: string, x: DispatchKey) {
    FamilyOf(x) == FamilyOf(k) && DeviceOf(x) in {OnCPU, OnCUDA} && Entry(x, kernel) in TableOf(t.dispatch)
  }

  /** Torch's table has this kernel for the CPU or the CUDA key of the family. */
  ghost predicate TorchUses(t: TorchOp, k: DispatchKey, kernel: string) {
    exists x :: UsedAt(t, k, kernel, x)
  }

  lemma UsedAtIff(t: TorchOp, k: DispatchKey, kernel: string, x: DispatchKey)
    requires TableOk(t.dispatch) && RelatedKeys(k).Some?
    ensures UsedAt(t, k, kernel, x) <==> x in RelatedKeys(k).value && Lookup(TableOf(t.dispatch), x) == Some(kernel)
  {
    TableDistinct(t.dispatch);
    FamilyMember(k, x);
    LookupIsEntry(TableOf(t.dispatch), x, kernel);
    hide TableOf;
    hide TableOk;
    hide Lookup;
    hide DistinctKeys;
    hide RelatedKeys;
    hide FamilyOf;
    hide DeviceOf;
  }

  lemma SharedIsUsed(t: TorchOp, k: DispatchKey, kernel: string)
    requires TableOk(t.dispatch) && RelatedKeys(k).Some?
    ensures SharesKernel(TableOf(t.dispatch), k, kernel) <==> TorchUses(t, k, kernel)
  {
    hide Lookup;
    hide TableOf;
    hide TableOk;
    hide FamilyOf;
    hide DeviceOf;
    hide RelatedKeys;
    hide UsedAt;
    var table, two := TableOf(t.dispatch), RelatedKeys(k).value;
    if TorchUses(t, k, kernel) {
      var x :| UsedAt(t, k, kernel, x);
      UsedAtIff(t, k, kernel, x);
      var i :| 0 <= i < |two| && two[i] == x;
    }
    if SharesKernel(table, k, kernel) {
      var i :| 0 <= i < |two| && Lookup(table, two[i]) == Some(kernel);
      UsedAtIff(t, k, kernel, two[i]);
    }
  }

  /** A kernel of the merged entry is called torch's own exactly when torch uses it for a key of the
      same family; for the structured key of a structured operator, exactly when the musa entry
      brings neither a kernel nor a meta function. */
  lemma LegacyIffTorchs(t: TorchOp, m: MusaOp, r: Merged, k: DispatchKey)
    requires MergeOk(t, m) && Promised(t, m, r) && k in r.op.dispatch
    ensures k in r.kinds
    ensures !(k == PrivateUse1 && t.structured) ==>
              (r.kinds[k] == Legacy <==> RelatedKeys(k).Some? && TorchUses(t, k, r.op.dispatch[k]))
    ensures k == PrivateUse1 && t.structured ==>
              (r.kinds[k] == Legacy <==> OwnKernel(m, k).None? && m.inherits.None? && m.precomputed.None?)
  {
    MergedIsConsistent(t, m, r);
    MergedTables(t, m);
    if RelatedKeys(k).Some? {
      SharedIsUsed(t, k, r.op.dispatch[k]);
    }
    hide MergeOk;
    hide TorchUses;
    hide SharesKernel;
    hide Lookup;
    hide TableOf;
    hide MetaPromised;
    assert KernelFor(t, m, k) == Some(r.op.dispatch[k]);
    assert KindFor(t, m, k) == Some(r.kinds[k]);
    hide Promised;
    hide Consistent;
    NothingUsed(t, k);
  }

  lemma NothingUsed(t: TorchOp, k: DispatchKey)
    ensures forall kernel :: t.dispatch.None? ==> !TorchUses(t, k, kernel)
    ensures forall kernel :: RelatedKeys(k).None? ==> !SharesKernel(TableOf(t.dispatch), k, kernel)
  {
  }

  /** If the merged entry has a kernel of torch's own, its device settings are torch's. */
  lemma LegacyKeepsDevices(t: TorchOp, m: MusaOp, r: Merged, k: DispatchKey)
    requires MergeOk(t, m) && Promised(t, m, r) && k in r.op.dispatch && k in r.kinds && r.kinds[k] == Legacy
    ensures GetOr(r.op.deviceCheck, "ExactSame") == GetOr(t.deviceCheck, "ExactSame")
    ensures GetOr(r.op.deviceGuard, true) == GetOr(t.deviceGuard, true)
  {
    assert KernelFor(t, m, k) == Some(r.op.dispatch[k]) && KindFor(t, m, k) == Some(Legacy);
    assert SameDevice(t, m);
    hide KernelFor;
    hide KindFor;
    hide MetaPromised;
    hide DeviceCheckFor;
    hide DeviceGuardFor;
  }

  function GetOr<T>(x: Option<T>, d: T): T {
    if x.Some? then x.value else d
  }
}
