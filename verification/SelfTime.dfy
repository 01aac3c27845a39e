/**
 Self times of profiler events: a depth-first walk of the event forest that
 takes from each event's duration the durations of its children.
 */
module SelfTime {
  import opened Options

  type EventId = nat

  datatype Event = Event(id: EventId, duration: int, children: seq<Event>)

  datatype Metrics = Metrics(selfTime: int, duration: int)

  /** A dictionary with the order in which its keys were entered. */
  datatype Table = Table(keys: seq<EventId>, entries: map<EventId, Metrics>)

  // ---------------------------------------------------------------- forests

  function Durations(forest: seq<Event>): int {
    if forest == [] then 0
    else Durations(forest[..|forest| - 1]) + forest[|forest| - 1].duration
  }

  function MetricsOf(e: Event): Metrics {
    Metrics(e.duration - Durations(e.children), e.duration)
  }

  /** How many events a forest has. */
  function Size(forest: seq<Event>): nat
    decreases forest
  {
    if forest == [] then 0
    else Size(forest[..|forest| - 1]) + 1 + Size(forest[|forest| - 1].children)
  }

  /** How many events of a forest have the id. */
  ghost function Count(forest: seq<Event>, x: EventId): nat
    decreases forest
  {
    if forest == [] then 0
    else
      var last := forest[|forest| - 1];
      Count(forest[..|forest| - 1], x) + (if last.id == x then 1 else 0) + Count(last.children, x)
  }

  /** The event is one of the forest's, at any depth. */
  ghost predicate Occurs(forest: seq<Event>, e: Event)
    decreases forest
  {
    forest != [] &&
    var last := forest[|forest| - 1];
    Occurs(forest[..|forest| - 1], e) || last == e || Occurs(last.children, e)
  }

  lemma Pushed(forest: seq<Event>, e: Event)
    ensures Size(forest + [e]) == Size(forest) + 1 + Size(e.children)
    ensures forall x :: Count(forest + [e], x) == Count(forest, x) + (if e.id == x then 1 else 0) + Count(e.children, x)
    ensures forall y :: Occurs(forest + [e], y) <==> Occurs(forest, y) || y == e || Occurs(e.children, y)
    ensures Durations(forest + [e]) == Durations(forest) + e.duration
  {
    var longer := forest + [e];
    assert longer[..|longer| - 1] == forest;
    assert longer[|longer| - 1] == e;
  }

  /** `whole` has the events of `first` and of `second`. */
  ghost predicate Joins(whole: seq<Event>, first: seq<Event>, second: seq<Event>) {
    && Size(whole) == Size(first) + Size(second)
    && (forall x :: Count(whole, x) == Count(first, x) + Count(second, x))
    && (forall e :: Occurs(whole, e) <==> Occurs(first, e) || Occurs(second, e))
    && Durations(whole) == Durations(first) + Durations(second)
  }

  lemma JoinsNothing(forest: seq<Event>)
    ensures Joins(forest, forest, []) && Durations([]) == 0
  {
  }

  lemma JoinsMore(whole: seq<Event>, first: seq<Event>, second: seq<Event>, e: Event)
    requires Joins(whole, first, second)
    ensures Joins(whole + [e], first, second + [e]) && Durations(second + [e]) == Durations(second) + e.duration
  {
    Pushed(second, e);
    Pushed(whole, e);
    hide Size;
    hide Count;
    hide Occurs;
    hide Durations;
  }

  // ---------------------------------------------------------------- tables

  /** The sum of the self times of the first `n` keys. */
  function SelfSum(t: Table, n: nat): int
    requires n <= |t.keys| && forall i :: 0 <= i < |t.keys| ==> t.keys[i] in t.entries
  {
    if n == 0 then 0 else SelfSum(t, n - 1) + t.entries[t.keys[n - 1]].selfTime
  }

  /** Each key is listed, and once. */
  ghost predicate WellFormed(t: Table) {
    && (forall i :: 0 <= i < |t.keys| ==> t.keys[i] in t.entries)
    && (forall i, j :: 0 <= i < j < |t.keys| ==> t.keys[i] != t.keys[j])
    && (forall x :: x in t.entries ==> x in t.keys)
  }

  function Enter(t: Table, x: EventId, m: Metrics): Table {
    Table(t.keys + [x], t.entries[x := m])
  }

  lemma {:induction false} SumOfPrefix(t: Table, x: EventId, m: Metrics, n: nat)
    requires WellFormed(t) && x !in t.entries && n <= |t.keys|
    ensures SelfSum(Enter(t, x, m), n) == SelfSum(t, n)
  {
    if n > 0 {
      SumOfPrefix(t, x, m, n - 1);
      assert t.keys[n - 1] in t.entries;
    }
  }

  lemma Entered(t: Table, x: EventId, m: Metrics)
    requires WellFormed(t) && x !in t.entries
    ensures WellFormed(Enter(t, x, m))
    ensures SelfSum(Enter(t, x, m), |t.keys| + 1) == SelfSum(t, |t.keys|) + m.selfTime
  {
    SumOfPrefix(t, x, m, |t.keys|);
    var u := Enter(t, x, m);
    forall y | y in u.entries
      ensures y in u.keys
    {
      assert y == x || y in t.entries;
      assert u.keys[|t.keys|] == x;
    }
  }

  // ---------------------------------------------------------------- the walk

  /** Some id occurs twice in the forest. */
  ghost predicate RepeatedId(roots: seq<Event>) {
    exists x :: Count(roots, x) > 1
  }

  /** The event's entry is in the table. */
  ghost predicate HasEntry(entries: map<EventId, Metrics>, e: Event) {
    e.id in entries && entries[e.id] == MetricsOf(e)
  }

  /** What holds between two steps: every event is still below the stack or has its entry,
      no id is counted twice, and no time is lost. */
  ghost predicate Walked(roots: seq<Event>, stack: seq<Event>, t: Table) {
    && WellFormed(t)
    && (forall x :: Count(stack, x) + (if x in t.entries then 1 else 0) == Count(roots, x))
    && (forall e :: Occurs(roots, e) ==> Occurs(stack, e) || HasEntry(t.entries, e))
    && SelfSum(t, |t.keys|) + Durations(stack) == Durations(roots)
  }

  /** One event handled: its children take its place on the stack. */
  lemma StepKeeps(roots: seq<Event>, rest: seq<Event>, e: Event, stack: seq<Event>, t: Table)
    requires Walked(roots, rest + [e], t) && e.id !in t.entries && Joins(stack, rest, e.children)
    ensures Walked(roots, stack, Enter(t, e.id, MetricsOf(e)))
  {
    Pushed(rest, e);
    Entered(t, e.id, MetricsOf(e));
    hide Size;
    hide Count;
    hide Occurs;
    hide Durations;
    hide SelfSum;
  }

  /** The stack is empty: every id was met once. */
  lemma WalkEnds(roots: seq<Event>, t: Table)
    requires Walked(roots, [], t)
    ensures WellFormed(t) && forall x :: Count(roots, x) == if x in t.entries then 1 else 0
    ensures SelfSum(t, |t.keys|) == Durations(roots)
    ensures forall e :: Occurs(roots, e) ==> HasEntry(t.entries, e)
  {
  }

  /** An event whose id has an entry already: the id occurs twice. */
  lemma MetTwice(roots: seq<Event>, rest: seq<Event>, e: Event, t: Table)
    requires Walked(roots, rest + [e], t) && e.id in t.entries
    ensures RepeatedId(roots)
  {
    Pushed(rest, e);
    assert Count(roots, e.id) > 1;
  }

  /** `None` is the assertion that no id is met twice. It holds for exactly the forests
      without a repeated id; then every event has its entry, every entry is one event's,
      and the self times add up to the durations of the roots. */
  method ComputeSelfTime(roots: seq<Event>) returns (r: Option<Table>)
    ensures r.None? <==> RepeatedId(roots)
    ensures r.Some? ==> WellFormed(r.value) && forall x :: Count(roots, x) == if x in r.value.entries then 1 else 0
    ensures r.Some? ==> forall e :: Occurs(roots, e) ==> HasEntry(r.value.entries, e)
    ensures r.Some? ==> SelfSum(r.value, |r.value.keys|) == Durations(roots)
  {
    var stack := roots;
    var t := Table([], map[]);
    assert Walked(roots, stack, t);
    hide Walked;
    hide Size;
    hide Count;
    hide Occurs;
    hide Durations;
    hide Joins;
    hide SelfSum;
    while stack != []
      invariant Walked(roots, stack, t)
      decreases Size(stack)
    {
      var e, rest := stack[|stack| - 1], stack[..|stack| - 1];
      assert stack == rest + [e];
      var selfTime;
      stack, selfTime := TakeChildren(rest, e);
      if e.id in t.entries {
        MetTwice(roots, rest, e, t);
        return None;
      }
      StepKeeps(roots, rest, e, stack, t);
      t := Enter(t, e.id, Metrics(selfTime, e.duration));
    }
    WalkEnds(roots, t);
    return Some(t);
  }

  /** Put an event's children on the stack in its place and subtract their durations. */
  method TakeChildren(rest: seq<Event>, e: Event) returns (stack: seq<Event>, selfTime: int)
    ensures Joins(stack, rest, e.children) && Size(stack) < Size(rest + [e])
    ensures selfTime == MetricsOf(e).selfTime
  {
    Pushed(rest, e);
    JoinsNothing(rest);
    stack, selfTime := rest, e.duration;
    assert e.children[..0] == [];
    hide Joins;
    hide Durations;
    hide Size;
    hide Count;
    hide Occurs;
    for k := 0 to |e.children|
      invariant Joins(stack, rest, e.children[..k])
      invariant selfTime == e.duration - Durations(e.children[..k])
    {
      assert e.children[..k + 1] == e.children[..k] + [e.children[k]];
      JoinsMore(stack, rest, e.children[..k], e.children[k]);
      selfTime := selfTime - e.children[k].duration;
      stack := stack + [e.children[k]];
    }
    assert e.children[..|e.children|] == e.children;
    JoinedSize(stack, rest, e.children);
  }

  lemma JoinedSize(whole: seq<Event>, first: seq<Event>, second: seq<Event>)
    requires Joins(whole, first, second)
    ensures Size(whole) == Size(first) + Size(second)
  {
  }
}
