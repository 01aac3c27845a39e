/**
 Generating the headers of an operator: torch's own kernels are taken out of the
 shared backend indices while declarations are generated, and put back after.
 */
module HeaderGen {
  import opened Options
  import opened OpMerge

  type OpName = string

  type Index = map<OpName, Metadata>

  /** What the functions of one root name are grouped into. A group lists its functions; `out`
      stands for the group when its kernel or its kind is asked for, as all indices are built with
      the out function as the primary one. */
  datatype Item = Single(fn: OpName) | Group(structured: bool, out: OpName, functions: seq<OpName>)

  type Kinds = map<OpName, map<DispatchKey, ImplKind>>

  /** The kinds that merging left for the kernels of an index. */
  ghost predicate KindsKnown(kinds: Kinds, dk: DispatchKey, index: Index) {
    forall op :: op in index ==> op in kinds && dk in kinds[op]
  }

  ghost predicate AllKindsKnown(kinds: Kinds, indices: map<DispatchKey, Index>) {
    forall dk :: dk in indices ==> KindsKnown(kinds, dk, indices[dk])
  }

  /** Entering a merged operator and its kinds keeps every kind known. */
  lemma MergedKindsKnown(kinds: Kinds, indices: map<DispatchKey, Index>, t: TorchOp, m: MusaOp, r: Merged, name: OpName,
                         grown: map<DispatchKey, Index>)
    requires AllKindsKnown(kinds, indices) && MergeOk(t, m) && Promised(t, m, r) && name !in kinds
    requires forall dk, op :: dk in grown && op in grown[dk] ==>
               (dk in indices && op in indices[dk]) || (op == name && dk in r.op.dispatch)
    ensures AllKindsKnown(kinds[name := r.kinds], grown)
  {
    MergedIsConsistent(t, m, r);
    hide MergeOk;
    hide Promised;
    forall dk, op | dk in grown && op in grown[dk]
      ensures op in kinds[name := r.kinds] && dk in kinds[name := r.kinds][op]
    {
      if dk in indices && op in indices[dk] {
        assert KindsKnown(kinds, dk, indices[dk]);
      }
    }
  }

  /** Kernels that are not torch's own need a declaration of their own. */
  predicate NeedsDeclaration(kinds: Kinds, dk: DispatchKey, op: OpName) {
    op in kinds && dk in kinds[op] && kinds[op][dk] in {LegacyMeta, Customized}
  }

  function Names(item: Item): set<OpName> {
    match item
    case Single(fn) => {fn}
    case Group(_, out, functions) => {out} + set i | 0 <= i < |functions| :: functions[i]
  }

  /** No function is in two groups. */
  ghost predicate Apart(items: seq<Item>) {
    forall i, j :: 0 <= i < j < |items| ==> Names(items[i]) !! Names(items[j])
  }

  /** The function is looked at on its own. Of a structured group nothing is if its kernel is
      missing, and only the group as a whole if that needs a declaration. */
  predicate Reached(kinds: Kinds, dk: DispatchKey, index: Index, item: Item, op: OpName) {
    match item
    case Single(fn) => op == fn
    case Group(structured, out, functions) =>
      if !structured then op in functions
      else out in index && if NeedsDeclaration(kinds, dk, out) then op == out else op in functions
  }

  ghost predicate Hides(kinds: Kinds, dk: DispatchKey, index: Index, item: Item, op: OpName) {
    Reached(kinds, dk, index, item, op) && op in index && !NeedsDeclaration(kinds, dk, op)
  }

  ghost predicate Declares(kinds: Kinds, dk: DispatchKey, index: Index, item: Item, op: OpName) {
    Reached(kinds, dk, index, item, op) && op in index && NeedsDeclaration(kinds, dk, op)
  }

  /** One of the first `n` items hides the function: each item sees what those before it left. */
  ghost predicate HiddenBy(kinds: Kinds, dk: DispatchKey, index: Index, items: seq<Item>, n: nat, op: OpName)
    requires n <= |items|
    decreases n, 0
  {
    n > 0 && (HiddenBy(kinds, dk, index, items, n - 1, op) ||
              Hides(kinds, dk, Remaining(kinds, dk, index, items, n - 1), items[n - 1], op))
  }

  /** The index without what the first `n` items hide. */
  ghost function Remaining(kinds: Kinds, dk: DispatchKey, index: Index, items: seq<Item>, n: nat): Index
    requires n <= |items|
    decreases n, 1
  {
    map op | op in index && !HiddenBy(kinds, dk, index, items, n, op) :: index[op]
  }

  /** Some function of the item needs a declaration. */
  ghost predicate DeclaresSome(kinds: Kinds, dk: DispatchKey, index: Index, item: Item) {
    exists op :: Declares(kinds, dk, index, item, op)
  }

  ghost predicate DeclaresAny(kinds: Kinds, dk: DispatchKey, index: Index, items: seq<Item>, n: nat)
    requires n <= |items|
  {
    exists j :: 0 <= j < n && DeclaresSome(kinds, dk, Remaining(kinds, dk, index, items, j), items[j])
  }

  /** `left` and `moved` are the two parts of `whole`. */
  ghost predicate Parts(whole: Index, left: Index, moved: Index) {
    && left.Keys !! moved.Keys && left.Keys + moved.Keys == whole.Keys
    && (forall op :: op in left ==> left[op] == whole[op])
    && (forall op :: op in moved ==> moved[op] == whole[op])
  }

  lemma PartsRestore(whole: Index, left: Index, moved: Index)
    requires Parts(whole, left, moved)
    ensures left + moved == whole
  {
  }

  // ---------------------------------------------------------------- hiding

  /** Move the function's kernel away if there is one and it is torch's own. */
  method MoveIfLegacy(kinds: Kinds, dk: DispatchKey, op: OpName, left: Index, moved: Index)
      returns (left': Index, moved': Index, need: bool)
    ensures need == (op in left && NeedsDeclaration(kinds, dk, op))
    ensures op in left && !need ==> left' == left - {op} && moved' == moved[op := left[op]]
    ensures op !in left || need ==> left' == left && moved' == moved
  {
    left', moved', need := left, moved, false;
    if op !in left {
      return;
    }
    if !NeedsDeclaration(kinds, dk, op) {
      moved' := moved[op := left[op]];
      left' := left - {op};
    } else {
      need := true;
    }
  }

  lemma MovedParts(whole: Index, left: Index, moved: Index, op: OpName)
    requires Parts(whole, left, moved) && op in left
    ensures Parts(whole, left - {op}, moved[op := left[op]])
  {
  }

  /** Move the kernels of a group's functions, one after the other. */
  method MoveFunctions(kinds: Kinds, dk: DispatchKey, functions: seq<OpName>, whole: Index, left: Index, moved: Index)
      returns (left': Index, moved': Index, need: bool)
    requires Parts(whole, left, moved)
    ensures Parts(whole, left', moved')
    ensures forall op :: op in moved' <==> op in moved || (op in functions && op in left && !NeedsDeclaration(kinds, dk, op))
    ensures need <==> exists op :: op in functions && op in left && NeedsDeclaration(kinds, dk, op)
  {
    left', moved', need := left, moved, false;
    hide NeedsDeclaration;
    for i := 0 to |functions|
      invariant Parts(whole, left', moved')
      invariant forall op :: op in moved' <==> op in moved || (op in functions[..i] && op in left && !NeedsDeclaration(kinds, dk, op))
      invariant need <==> exists op :: op in functions[..i] && op in left && NeedsDeclaration(kinds, dk, op)
    {
      assert functions[..i + 1] == functions[..i] + [functions[i]];
      var declared;
      if functions[i] in left' {
        MovedParts(whole, left', moved', functions[i]);
      }
      hide Parts;
      left', moved', declared := MoveIfLegacy(kinds, dk, functions[i], left', moved');
      need := need || declared;
    }
    assert functions[..|functions|] == functions;
  }

  /** What the item hides is moved besides what was moved before. */
  ghost predicate Adds(kinds: Kinds, dk: DispatchKey, index: Index, item: Item, moved: Index, moved': Index) {
    forall op :: op in moved' <==> op in moved || Hides(kinds, dk, index, item, op)
  }

  /** The item's kernels that are torch's own are moved, the others noted. */
  ghost predicate ItemDone(kinds: Kinds, dk: DispatchKey, item: Item, whole: Index, left: Index, moved: Index,
                           left': Index, moved': Index, need: bool) {
    && Parts(whole, left', moved') && Adds(kinds, dk, left, item, moved, moved')
    && (need <==> DeclaresSome(kinds, dk, left, item))
  }

  /** Move the kernels of one item that are torch's own. */
  method MoveItem(kinds: Kinds, dk: DispatchKey, item: Item, whole: Index, left: Index, moved: Index)
      returns (left': Index, moved': Index, need: bool)
    requires Parts(whole, left, moved)
    ensures ItemDone(kinds, dk, item, whole, left, moved, left', moved', need)
  {
    hide ItemDone;
    hide Parts;
    match item {
      case Single(fn) =>
        left', moved', need := MoveIfLegacy(kinds, dk, fn, left, moved);
        SingleDone(kinds, dk, fn, whole, left, moved);
      case Group(structured, out, functions) =>
        if structured && (out !in left || NeedsDeclaration(kinds, dk, out)) {
          left', moved', need := left, moved, out in left;
          GroupLeft(kinds, dk, item, whole, left, moved);
          return;
        }
        left', moved', need := MoveFunctions(kinds, dk, functions, whole, left, moved);
        GroupDone(kinds, dk, item, whole, left, moved, left', moved', need);
    }
  }

  lemma SingleDone(kinds: Kinds, dk: DispatchKey, fn: OpName, whole: Index, left: Index, moved: Index)
    requires Parts(whole, left, moved)
    ensures fn !in left ==> ItemDone(kinds, dk, Single(fn), whole, left, moved, left, moved, false)
    ensures fn in left && NeedsDeclaration(kinds, dk, fn) ==> ItemDone(kinds, dk, Single(fn), whole, left, moved, left, moved, true)
    ensures fn in left && !NeedsDeclaration(kinds, dk, fn) ==>
              ItemDone(kinds, dk, Single(fn), whole, left, moved, left - {fn}, moved[fn := left[fn]], false)
  {
    SingleReached(kinds, dk, left, fn);
    SingleAdds(kinds, dk, fn, left, moved);
    if fn in left {
      MovedParts(whole, left, moved, fn);
    }
    hide NeedsDeclaration;
    hide Hides;
    hide Adds;
    hide DeclaresSome;
    hide Parts;
  }

  lemma SingleAdds(kinds: Kinds, dk: DispatchKey, fn: OpName, left: Index, moved: Index)
    ensures fn !in left || NeedsDeclaration(kinds, dk, fn) ==> Adds(kinds, dk, left, Single(fn), moved, moved)
    ensures fn in left && !NeedsDeclaration(kinds, dk, fn) ==> Adds(kinds, dk, left, Single(fn), moved, moved[fn := left[fn]])
  {
    SingleReached(kinds, dk, left, fn);
    hide NeedsDeclaration;
    hide Hides;
  }

  lemma SingleReached(kinds: Kinds, dk: DispatchKey, index: Index, fn: OpName)
    ensures forall op :: Hides(kinds, dk, index, Single(fn), op) <==> op == fn && fn in index && !NeedsDeclaration(kinds, dk, fn)
    ensures DeclaresSome(kinds, dk, index, Single(fn)) <==> fn in index && NeedsDeclaration(kinds, dk, fn)
  {
    hide NeedsDeclaration;
    assert Declares(kinds, dk, index, Single(fn), fn) <==> fn in index && NeedsDeclaration(kinds, dk, fn);
  }

  /** A structured group without a kernel, or one that needs a declaration as a whole. */
  lemma GroupLeft(kinds: Kinds, dk: DispatchKey, item: Item, whole: Index, left: Index, moved: Index)
    requires Parts(whole, left, moved) && item.Group? && item.structured && (item.out !in left || NeedsDeclaration(kinds, dk, item.out))
    ensures ItemDone(kinds, dk, item, whole, left, moved, left, moved, item.out in left)
  {
    GroupLeftReached(kinds, dk, item, left);
    hide NeedsDeclaration;
    hide Hides;
    hide DeclaresSome;
    hide Parts;
  }

  lemma GroupLeftReached(kinds: Kinds, dk: DispatchKey, item: Item, left: Index)
    requires item.Group? && item.structured && (item.out !in left || NeedsDeclaration(kinds, dk, item.out))
    ensures forall op :: !Hides(kinds, dk, left, item, op)
    ensures DeclaresSome(kinds, dk, left, item) <==> item.out in left
  {
    hide NeedsDeclaration;
    assert item.out in left ==> Declares(kinds, dk, left, item, item.out);
  }

  lemma GroupDone(kinds: Kinds, dk: DispatchKey, item: Item, whole: Index, left: Index, moved: Index,
                  left': Index, moved': Index, need: bool)
    requires item.Group? && (item.structured ==> item.out in left && !NeedsDeclaration(kinds, dk, item.out)) && Parts(whole, left', moved')
    requires forall op :: op in moved' <==> op in moved || (op in item.functions && op in left && !NeedsDeclaration(kinds, dk, op))
    requires need <==> exists op :: op in item.functions && op in left && NeedsDeclaration(kinds, dk, op)
    ensures ItemDone(kinds, dk, item, whole, left, moved, left', moved', need)
  {
    WholeGroupReached(kinds, dk, left, item);
    hide NeedsDeclaration;
    hide Reached;
    hide Parts;
    hide DeclaresSome;
  }

  lemma WholeGroupReached(kinds: Kinds, dk: DispatchKey, index: Index, item: Item)
    requires item.Group? && (item.structured ==> item.out in index && !NeedsDeclaration(kinds, dk, item.out))
    ensures forall op :: Reached(kinds, dk, index, item, op) <==> op in item.functions
    ensures DeclaresSome(kinds, dk, index, item) <==> exists op :: op in item.functions && op in index && NeedsDeclaration(kinds, dk, op)
  {
    hide NeedsDeclaration;
    forall op
      ensures Declares(kinds, dk, index, item, op) <==> op in item.functions && op in index && NeedsDeclaration(kinds, dk, op)
    {
    }
  }

  /** The effect of the first `n` items on the index `whole`. */
  ghost predicate Moved(kinds: Kinds, dk: DispatchKey, items: seq<Item>, n: nat, whole: Index, moved: Index, need: bool)
    requires n <= |items|
  {
    && (forall op :: op in moved <==> HiddenBy(kinds, dk, whole, items, n, op))
    && (need <==> DeclaresAny(kinds, dk, whole, items, n))
  }

  /** What was moved is torch's own and belongs to one of the first `n` items. */
  ghost predicate OnlyLegacy(kinds: Kinds, dk: DispatchKey, items: seq<Item>, n: nat, moved: Index)
    requires n <= |items|
  {
    forall op :: op in moved ==> !NeedsDeclaration(kinds, dk, op) && exists j :: 0 <= j < n && op in Names(items[j])
  }

  lemma ReachedIsNamed(kinds: Kinds, dk: DispatchKey, index: Index, item: Item, op: OpName)
    requires Reached(kinds, dk, index, item, op)
    ensures op in Names(item)
  {
  }

  lemma OnlyLegacyNext(kinds: Kinds, dk: DispatchKey, items: seq<Item>, n: nat, left: Index, moved: Index, moved': Index)
    requires n < |items| && OnlyLegacy(kinds, dk, items, n, moved)
    requires Adds(kinds, dk, left, items[n], moved, moved')
    ensures OnlyLegacy(kinds, dk, items, n + 1, moved')
  {
    hide Reached;
    hide NeedsDeclaration;
    hide Names;
    forall op | op in moved'
      ensures !NeedsDeclaration(kinds, dk, op) && exists j :: 0 <= j < n + 1 && op in Names(items[j])
    {
      if op in moved {
        var j :| 0 <= j < n && op in Names(items[j]);
      } else {
        ReachedIsNamed(kinds, dk, left, items[n], op);
      }
    }
  }

  lemma DeclaresAnyNext(kinds: Kinds, dk: DispatchKey, index: Index, items: seq<Item>, n: nat)
    requires n < |items|
    ensures DeclaresAny(kinds, dk, index, items, n + 1) <==>
            DeclaresAny(kinds, dk, index, items, n) || DeclaresSome(kinds, dk, Remaining(kinds, dk, index, items, n), items[n])
  {
    hide DeclaresSome;
    hide Remaining;
  }

  /** What is left is the index without what was hidden. */
  lemma LeftIsRemaining(kinds: Kinds, dk: DispatchKey, items: seq<Item>, n: nat, whole: Index, left: Index, moved: Index, need: bool)
    requires n <= |items| && Parts(whole, left, moved) && Moved(kinds, dk, items, n, whole, moved, need)
    ensures left == Remaining(kinds, dk, whole, items, n)
  {
    hide HiddenBy;
    hide DeclaresAny;
    forall op
      ensures op in left <==> op in whole && op !in moved
    {
      assert op in left || op in moved <==> op in whole;
    }
  }

  lemma MovedNext(kinds: Kinds, dk: DispatchKey, items: seq<Item>, n: nat, whole: Index, left: Index, moved: Index, need: bool,
                  moved': Index, declared: bool)
    requires n < |items| && Parts(whole, left, moved) && Moved(kinds, dk, items, n, whole, moved, need)
    requires Adds(kinds, dk, left, items[n], moved, moved')
    requires declared <==> DeclaresSome(kinds, dk, left, items[n])
    ensures Moved(kinds, dk, items, n + 1, whole, moved', need || declared)
  {
    LeftIsRemaining(kinds, dk, items, n, whole, left, moved, need);
    DeclaresAnyNext(kinds, dk, whole, items, n);
    hide Parts;
    hide Hides;
    hide DeclaresSome;
    hide DeclaresAny;
    hide Remaining;
  }

  lemma NothingMoved(kinds: Kinds, dk: DispatchKey, items: seq<Item>, whole: Index)
    ensures KeyDone(kinds, dk, items, 0, whole, whole, map[], false)
  {
    hide Parts;
    hide Moved;
    NoParts(whole);
    NoneMoved(kinds, dk, items, whole);
  }

  lemma NoParts(whole: Index)
    ensures Parts(whole, whole, map[])
  {
  }

  lemma NoneMoved(kinds: Kinds, dk: DispatchKey, items: seq<Item>, whole: Index)
    ensures Moved(kinds, dk, items, 0, whole, map[], false)
  {
    hide Hides;
    hide DeclaresSome;
  }

  /** All items were handled for one index. */
  ghost predicate KeyDone(kinds: Kinds, dk: DispatchKey, items: seq<Item>, n: nat, whole: Index, left: Index, moved: Index, need: bool)
    requires n <= |items|
  {
    && Parts(whole, left, moved) && OnlyLegacy(kinds, dk, items, n, moved)
    && Moved(kinds, dk, items, n, whole, moved, need)
  }

  lemma KeyDoneNext(kinds: Kinds, dk: DispatchKey, items: seq<Item>, n: nat, whole: Index, left: Index, moved: Index, need: bool,
                    left': Index, moved': Index, declared: bool)
    requires n < |items| && KeyDone(kinds, dk, items, n, whole, left, moved, need)
    requires ItemDone(kinds, dk, items[n], whole, left, moved, left', moved', declared)
    ensures KeyDone(kinds, dk, items, n + 1, whole, left', moved', need || declared)
  {
    hide Parts;
    hide OnlyLegacy;
    hide Moved;
    hide Adds;
    hide DeclaresSome;
    OnlyLegacyNext(kinds, dk, items, n, left, moved, moved');
    MovedNext(kinds, dk, items, n, whole, left, moved, need, moved', declared);
  }

  /** Move torch's own kernels out of one index. */
  method MoveLegacy(kinds: Kinds, dk: DispatchKey, items: seq<Item>, whole: Index) returns (left: Index, moved: Index, need: bool)
    ensures KeyDone(kinds, dk, items, |items|, whole, left, moved, need)
  {
    left, moved, need := whole, map[], false;
    NothingMoved(kinds, dk, items, whole);
    hide KeyDone;
    hide ItemDone;
    for i := 0 to |items|
      invariant KeyDone(kinds, dk, items, i, whole, left, moved, need)
    {
      KeyDoneParts(kinds, dk, items, i, whole, left, moved, need);
      var left', moved', declared := MoveItem(kinds, dk, items[i], whole, left, moved);
      KeyDoneNext(kinds, dk, items, i, whole, left, moved, need, left', moved', declared);
      left, moved, need := left', moved', need || declared;
    }
  }

  lemma KeyDoneParts(kinds: Kinds, dk: DispatchKey, items: seq<Item>, n: nat, whole: Index, left: Index, moved: Index, need: bool)
    requires n <= |items| && KeyDone(kinds, dk, items, n, whole, left, moved, need)
    ensures Parts(whole, left, moved)
  {
  }

  ghost predicate AnyTrue(answers: map<DispatchKey, bool>) {
    exists dk :: dk in answers && answers[dk]
  }

  lemma AnyTrueNext(answers: map<DispatchKey, bool>, dk: DispatchKey, answer: bool)
    requires dk !in answers
    ensures AnyTrue(answers[dk := answer]) <==> AnyTrue(answers) || answer
  {
    var longer := answers[dk := answer];
    if AnyTrue(answers) {
      var k :| k in answers && answers[k];
      assert k in longer && longer[k];
    }
    assert dk in longer && longer[dk] == answer;
  }

  lemma AllMoved(kinds: Kinds, items: seq<Item>, before: map<DispatchKey, Index>, left: map<DispatchKey, Index>,
                 legacy: map<DispatchKey, Index>, declares: map<DispatchKey, bool>)
    requires before.Keys == left.Keys == legacy.Keys == declares.Keys
    requires forall dk :: dk in legacy ==> KeyDone(kinds, dk, items, |items|, before[dk], left[dk], legacy[dk], declares[dk])
    ensures forall dk :: dk in legacy ==> Parts(before[dk], left[dk], legacy[dk]) && OnlyLegacy(kinds, dk, items, |items|, legacy[dk])
    ensures forall dk, op :: dk in legacy ==> (op in legacy[dk] <==> HiddenBy(kinds, dk, before[dk], items, |items|, op))
    ensures AnyTrue(declares) <==> Declared(kinds, before, items)
  {
    hide Parts;
    hide OnlyLegacy;
    hide HiddenBy;
    hide DeclaresAny;
    forall dk | dk in before
      ensures Parts(before[dk], left[dk], legacy[dk]) && OnlyLegacy(kinds, dk, items, |items|, legacy[dk])
      ensures declares[dk] <==> DeclaresAny(kinds, dk, before[dk], items, |items|)
    {
      assert KeyDone(kinds, dk, items, |items|, before[dk], left[dk], legacy[dk], declares[dk]);
    }
  }

  lemma PartsSplit(whole: Index, left: Index, moved: Index)
    requires Parts(whole, left, moved)
    ensures left.Keys <= whole.Keys
    ensures forall op :: op in whole ==> (op in left <==> op !in moved)
    ensures forall op :: op in left ==> left[op] == whole[op]
  {
    assert forall op :: op in whole ==> op in left || op in moved;
  }

  lemma OnlyLegacyMoved(kinds: Kinds, dk: DispatchKey, items: seq<Item>, moved: Index)
    requires OnlyLegacy(kinds, dk, items, |items|, moved)
    ensures forall op :: op in moved ==> !NeedsDeclaration(kinds, dk, op)
  {
    hide NeedsDeclaration;
  }

  lemma LegacyKind(kinds: Kinds, dk: DispatchKey, index: Index, op: OpName)
    requires KindsKnown(kinds, dk, index) && op in index && !NeedsDeclaration(kinds, dk, op)
    ensures op in kinds && dk in kinds[op] && kinds[op][dk] == Legacy
  {
  }

  // ---------------------------------------------------------------- the generator

  class HeaderGenerator {
    const kinds: Kinds
    var indices: map<DispatchKey, Index>

    constructor (kinds: Kinds, indices: map<DispatchKey, Index>)
      ensures this.kinds == kinds && this.indices == indices
    {
      this.kinds, this.indices := kinds, indices;
    }

    /** Take torch's own kernels of these functions out of every index. */
    method HideLegacy(items: seq<Item>) returns (legacy: map<DispatchKey, Index>, need: bool)
      requires AllKindsKnown(kinds, indices)
      modifies this
      ensures indices.Keys == old(indices).Keys && legacy.Keys == old(indices).Keys
      ensures forall dk :: dk in indices ==> Parts(old(indices)[dk], indices[dk], legacy[dk])
      ensures forall dk :: dk in indices ==> OnlyLegacy(kinds, dk, items, |items|, legacy[dk])
      ensures forall dk, op :: dk in indices ==>
                (op in legacy[dk] <==> HiddenBy(kinds, dk, old(indices)[dk], items, |items|, op))
      ensures need <==> Declared(kinds, old(indices), items)
    {
      hide KeyDone;
      hide Parts;
      hide OnlyLegacy;
      hide HiddenBy;
      hide Declared;
      legacy, need := map[], false;
      assert !AnyTrue(map[]);
      hide AnyTrue;
      ghost var before := indices;
      ghost var declares: map<DispatchKey, bool> := map[];
      var todo := indices.Keys;
      while todo != {}
        invariant todo <= before.Keys && indices.Keys == before.Keys && legacy.Keys == before.Keys - todo
        invariant declares.Keys == legacy.Keys && (need <==> AnyTrue(declares))
        invariant forall dk :: dk in todo ==> indices[dk] == before[dk]
        invariant forall dk :: dk in legacy ==> KeyDone(kinds, dk, items, |items|, before[dk], indices[dk], legacy[dk], declares[dk])
        decreases todo
      {
        var dk :| dk in todo;
        var left, moved, declared := MoveLegacy(kinds, dk, items, indices[dk]);
        indices := indices[dk := left];
        legacy := legacy[dk := moved];
        AnyTrueNext(declares, dk, declared);
        declares := declares[dk := declared];
        need := need || declared;
        todo := todo - {dk};
      }
      AllMoved(kinds, items, before, indices, legacy, declares);
    }

    /** The headers of one root name. `visible` is what the declarations are generated from. */
    method GenerateFor(items: seq<Item>) returns (need: bool, visible: map<DispatchKey, Index>)
      requires AllKindsKnown(kinds, indices)
      modifies this
      ensures indices == old(indices)
      ensures visible.Keys == indices.Keys && forall dk :: dk in visible ==> visible[dk].Keys <= indices[dk].Keys
      ensures forall dk, op :: dk in visible && op in indices[dk] && NeedsDeclaration(kinds, dk, op) ==>
                op in visible[dk] && visible[dk][op] == indices[dk][op]
      ensures forall dk, op :: dk in visible && op in indices[dk] && op !in visible[dk] ==> kinds[op][dk] == Legacy
      ensures forall dk, op :: dk in visible && op in indices[dk] ==>
                (op in visible[dk] <==> !HiddenBy(kinds, dk, indices[dk], items, |items|, op))
      ensures need <==> Declared(kinds, indices, items)
    {
      hide HiddenBy;
      hide Declared;
      hide Parts;
      hide OnlyLegacy;
      hide NeedsDeclaration;
      ghost var before := indices;
      var legacy;
      legacy, need := HideLegacy(items);
      visible := indices;
      forall dk | dk in before
        ensures visible[dk].Keys <= before[dk].Keys
        ensures forall op :: op in before[dk] ==> (op in visible[dk] <==> op !in legacy[dk])
        ensures forall op :: op in visible[dk] ==> visible[dk][op] == before[dk][op]
        ensures forall op :: op in legacy[dk] ==> !NeedsDeclaration(kinds, dk, op)
      {
        PartsSplit(before[dk], visible[dk], legacy[dk]);
        OnlyLegacyMoved(kinds, dk, items, legacy[dk]);
      }
      forall dk, op | dk in before && op in before[dk] && op !in visible[dk]
        ensures op in kinds && dk in kinds[op] && kinds[op][dk] == Legacy
      {
        LegacyKind(kinds, dk, before[dk], op);
      }
      RestoreLegacy(legacy, before);
    }

    /** Put back what was moved. */
    method RestoreLegacy(legacy: map<DispatchKey, Index>, ghost before: map<DispatchKey, Index>)
      requires indices.Keys == before.Keys == legacy.Keys
      requires forall dk :: dk in indices ==> Parts(before[dk], indices[dk], legacy[dk])
      modifies this
      ensures indices == before
    {
      hide Parts;
      var todo := indices.Keys;
      while todo != {}
        invariant todo <= before.Keys && indices.Keys == before.Keys
        invariant forall dk :: dk in todo ==> Parts(before[dk], indices[dk], legacy[dk])
        invariant forall dk :: dk in before && dk !in todo ==> indices[dk] == before[dk]
        decreases todo
      {
        var dk :| dk in todo;
        PartsRestore(before[dk], indices[dk], legacy[dk]);
        indices := indices[dk := indices[dk] + legacy[dk]];
        todo := todo - {dk};
      }
      assert indices == before;
    }

    /** The headers of all root names, one after the other: the indices end as they began. */
    method GeneratePerOperator(groups: seq<seq<Item>>) returns (needed: seq<nat>)
      requires AllKindsKnown(kinds, indices)
      modifies this
      ensures indices == old(indices)
      ensures forall i :: 0 <= i < |groups| ==> (i in needed <==> Declared(kinds, indices, groups[i]))
    {
      hide Declared;
      needed := [];
      for i := 0 to |groups|
        invariant indices == old(indices)
        invariant forall k :: k in needed ==> k < i
        invariant forall k :: 0 <= k < i ==> (k in needed <==> Declared(kinds, indices, groups[k]))
      {
        var need, visible := GenerateFor(groups[i]);
        if need {
          needed := needed + [i];
        }
      }
    }
  }

  /** Some function of the items needs a declaration for some key. */
  ghost predicate Declared(kinds: Kinds, indices: map<DispatchKey, Index>, items: seq<Item>) {
    exists dk :: dk in indices && DeclaresAny(kinds, dk, indices[dk], items, |items|)
  }

  // ---------------------------------------------------------------- groups that share no function

  /** Where functions are in one group each, an item sees the index as it was. */
  lemma ItemUndisturbed(kinds: Kinds, dk: DispatchKey, items: seq<Item>, n: nat, whole: Index, op: OpName)
    requires Apart(items) && n < |items|
    ensures Hides(kinds, dk, Remaining(kinds, dk, whole, items, n), items[n], op) <==> Hides(kinds, dk, whole, items[n], op)
  {
    var left := Remaining(kinds, dk, whole, items, n);
    forall x | x in Names(items[n])
      ensures x in left <==> x in whole
    {
      NotHiddenBefore(kinds, dk, items, n, n, whole, x);
    }
    hide Remaining;
    hide HiddenBy;
    if Reached(kinds, dk, whole, items[n], op) {
      ReachedIsNamed(kinds, dk, whole, items[n], op);
    }
    if Reached(kinds, dk, left, items[n], op) {
      ReachedIsNamed(kinds, dk, left, items[n], op);
    }
    OutIsNamed(items[n]);
    hide Names;
  }

  lemma OutIsNamed(item: Item)
    ensures item.Group? ==> item.out in Names(item)
  {
  }

  lemma {:induction false} NotHiddenBefore(kinds: Kinds, dk: DispatchKey, items: seq<Item>, m: nat, n: nat, whole: Index, x: OpName)
    requires Apart(items) && m <= n < |items| && x in Names(items[n])
    ensures !HiddenBy(kinds, dk, whole, items, m, x)
  {
    if m > 0 {
      NotHiddenBefore(kinds, dk, items, m - 1, n, whole, x);
      hide Names;
      hide Reached;
      hide Remaining;
      if Hides(kinds, dk, Remaining(kinds, dk, whole, items, m - 1), items[m - 1], x) {
        ReachedIsNamed(kinds, dk, Remaining(kinds, dk, whole, items, m - 1), items[m - 1], x);
      }
    }
  }

  /** Then a function is hidden exactly when some item hides it by itself. */
  lemma {:induction false} ApartHidden(kinds: Kinds, dk: DispatchKey, items: seq<Item>, n: nat, whole: Index, op: OpName)
    requires Apart(items) && n <= |items|
    ensures HiddenBy(kinds, dk, whole, items, n, op) <==> exists j :: 0 <= j < n && Hides(kinds, dk, whole, items[j], op)
  {
    if n > 0 {
      ApartHidden(kinds, dk, items, n - 1, whole, op);
      ItemUndisturbed(kinds, dk, items, n - 1, whole, op);
      hide Hides;
      hide Remaining;
    }
  }
}
