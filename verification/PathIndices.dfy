/**
 Indices of outputs on a path, (distance from the root, output number), and the
 two index lists the graph nodes compute from liveness tables: where a table is
 true, and where two tables differ.
 */
module PathIndices {

  datatype PathIndex = PathIndex(depth: nat, output: nat)

  /** For each node of a path, for each output: is it alive. */
  type Liveness = seq<seq<bool>>

  predicate At(bits: Liveness, d: nat, i: nat) {
    d < |bits| && i < |bits[d]| && bits[d][i]
  }

  /** Indices of the true entries among the first `n` of row `d`, in order. */
  function RowIndices(row: seq<bool>, d: nat, n: nat): seq<PathIndex>
    requires n <= |row|
  {
    if n == 0 then []
    else RowIndices(row, d, n - 1) + (if row[n - 1] then [PathIndex(d, n - 1)] else [])
  }

  /** Indices of the true entries of the first `n` rows, in order. */
  function TrueIndices(bits: Liveness, n: nat): seq<PathIndex>
    requires n <= |bits|
  {
    if n == 0 then []
    else TrueIndices(bits, n - 1) + RowIndices(bits[n - 1], n - 1, |bits[n - 1]|)
  }

  lemma {:induction false} RowIndicesMember(row: seq<bool>, d: nat, n: nat, p: PathIndex)
    requires n <= |row|
    ensures p in RowIndices(row, d, n) <==> p.depth == d && p.output < n && row[p.output]
  {
    if n > 0 {
      RowIndicesMember(row, d, n - 1, p);
    }
  }

  lemma {:induction false} TrueIndicesMember(bits: Liveness, n: nat, p: PathIndex)
    requires n <= |bits|
    ensures p in TrueIndices(bits, n) <==> p.depth < n && At(bits, p.depth, p.output)
  {
    if n > 0 {
      TrueIndicesMember(bits, n - 1, p);
      RowIndicesMember(bits[n - 1], n - 1, |bits[n - 1]|, p);
    }
  }

  /** The later table has at least the rows of the earlier one, and each common
      row has the same length: what the comparison asserts of its arguments. */
  predicate Comparable(prev: Liveness, curr: Liveness) {
    |prev| <= |curr| && forall d :: 0 <= d < |prev| ==> |prev[d]| == |curr[d]|
  }

  function DifferenceRow(prev: seq<bool>, curr: seq<bool>): (r: seq<bool>)
    requires |prev| == |curr|
  {
    seq(|prev|, i requires 0 <= i < |prev| => prev[i] != curr[i])
  }

  function Differences(prev: Liveness, curr: Liveness): (r: Liveness)
    requires Comparable(prev, curr)
  {
    seq(|prev|, d requires 0 <= d < |prev| => DifferenceRow(prev[d], curr[d]))
  }

  /** Indices at which two comparable tables differ, over the rows of the earlier one. */
  function DifferentIndices(prev: Liveness, curr: Liveness): (r: seq<PathIndex>) {
    if !Comparable(prev, curr) then []
    else
      var bits := Differences(prev, curr);
      TrueIndices(bits, |bits|)
  }

  lemma DifferentIndicesMember(prev: Liveness, curr: Liveness, p: PathIndex)
    requires Comparable(prev, curr)
    ensures p in DifferentIndices(prev, curr) <==>
            p.depth < |prev| && p.output < |prev[p.depth]| &&
            prev[p.depth][p.output] != curr[p.depth][p.output]
  {
    var bits := Differences(prev, curr);
    TrueIndicesMember(bits, |bits|, p);
  }

  /** The nested scan of the source for the positions where two tables differ. */
  method GetDifferentIndices(prev: Liveness, curr: Liveness) returns (dead: seq<PathIndex>)
    requires Comparable(prev, curr)
    ensures dead == DifferentIndices(prev, curr)
  {
    ghost var bits := Differences(prev, curr);
    dead := [];
    for d := 0 to |prev|
      invariant dead == TrueIndices(bits, d)
    {
      for i := 0 to |prev[d]|
        invariant |bits[d]| == |prev[d]|
        invariant dead == TrueIndices(bits, d) + RowIndices(bits[d], d, i)
      {
        if prev[d][i] != curr[d][i] {
          dead := dead + [PathIndex(d, i)];
        }
      }
    }
  }
}
