/**
 The five ordered global replacements that turn CUDA-side words of a text into
 MUSA-side ones.
 */
module TextRewriting {

  predicate Contains(s: string, k: string) {
    k <= s || (s != [] && Contains(s[1..], k))
  }

  /** Python's `str.replace`: every occurrence, from the left, without overlap. */
  function Replace(s: string, k: string, v: string): string
    requires k != []
  {
    if s == [] then []
    else if k <= s then v + Replace(s[|k|..], k, v)
    else [s[0]] + Replace(s[1..], k, v)
  }

  datatype Rule = Rule(key: string, value: string)

  const Rules: seq<Rule> := [
    Rule("CUDA", "MUSA"), Rule("cuda", "musa"), Rule("NCCL", "MCCL"), Rule("nccl", "mccl"), Rule("nvcc", "mcc")]

  /** The first `n` replacements, in order. */
  function RewriteFirst(s: string, n: nat): string
    requires n <= |Rules|
  {
    if n == 0 then s else Replace(RewriteFirst(s, n - 1), Rules[n - 1].key, Rules[n - 1].value)
  }

  function Rewrite(s: string): string {
    RewriteFirst(s, |Rules|)
  }

  /** None of the five keys occurs. */
  ghost predicate Clean(s: string) {
    forall i :: 0 <= i < |Rules| ==> !Contains(s, Rules[i].key)
  }

  // ---------------------------------------------------------------- one replacement

  lemma {:induction false} NothingToReplace(s: string, k: string, v: string)
    requires k != [] && !Contains(s, k)
    ensures Replace(s, k, v) == s
  {
    if s != [] {
      NothingToReplace(s[1..], k, v);
    }
  }

  /** No occurrence of `k` begins in `a` when `k` follows it: the first one is that at its end. */
  predicate FirstAtEnd(a: string, k: string)
    requires k != []
  {
    !Contains((a + k)[..|a| + |k| - 1], k)
  }

  /** An occurrence at the end of a non-empty `a` is not at its beginning. */
  lemma LaterFirst(a: string, k: string, b: string)
    requires k != [] && a != [] && FirstAtEnd(a, k)
    ensures !(k <= a + k + b) && FirstAtEnd(a[1..], k)
  {
    var shorter := (a + k)[..|a| + |k| - 1];
    assert shorter <= a + k + b;
    assert k <= a + k + b ==> k <= shorter;
    assert shorter[1..] == (a[1..] + k)[..|a[1..]| + |k| - 1];
  }

  /** The text before the first occurrence stays, the occurrence is replaced, and the rest is
      treated in the same way. */
  lemma {:induction false} ReplaceAtFirst(a: string, k: string, b: string, v: string)
    requires k != [] && FirstAtEnd(a, k)
    ensures Replace(a + k + b, k, v) == a + v + Replace(b, k, v)
  {
    var s := a + k + b;
    if a == [] {
      assert s == k + b && s[|k|..] == b;
    } else {
      LaterFirst(a, k, b);
      ReplaceAtFirst(a[1..], k, b, v);
      hide FirstAtEnd;
      assert s[1..] == a[1..] + k + b;
      assert Replace(s, k, v) == [a[0]] + Replace(s[1..], k, v);
      hide Replace;
      assert a + v + Replace(b, k, v) == [a[0]] + (a[1..] + v + Replace(b, k, v));
    }
  }

  function JoinWith(pieces: seq<string>, glue: string): string {
    if pieces == [] then "" else if |pieces| == 1 then pieces[0] else pieces[0] + glue + JoinWith(pieces[1..], glue)
  }

  /** The pieces of a text between the occurrences of `k`, found from the left. */
  ghost predicate SplitBy(pieces: seq<string>, k: string)
    requires k != []
  {
    && |pieces| > 0 && !Contains(pieces[|pieces| - 1], k)
    && forall i :: 0 <= i < |pieces| - 1 ==> FirstAtEnd(pieces[i], k)
  }

  /** Every text is some pieces joined by `k`, and the replacement is the same pieces joined by
      `v`: nothing but the occurrences of `k` is touched. */
  lemma {:induction false} ReplaceRejoins(s: string, k: string, v: string) returns (pieces: seq<string>)
    requires k != []
    ensures SplitBy(pieces, k) && JoinWith(pieces, k) == s && Replace(s, k, v) == JoinWith(pieces, v)
    ensures |Replace(s, k, v)| == |s| + (|pieces| - 1) * (|v| - |k|)
    decreases |s|
  {
    if !Contains(s, k) {
      NothingToReplace(s, k, v);
      pieces := [s];
    } else {
      var a, b := FirstOccurrence(s, k);
      var rest := ReplaceRejoins(b, k, v);
      ReplaceAtFirst(a, k, b, v);
      pieces := [a] + rest;
      assert pieces[1..] == rest;
      assert forall i :: 0 < i < |pieces| ==> pieces[i] == rest[i - 1];
      assert |Replace(s, k, v)| == |a| + |v| + |b| + (|rest| - 1) * (|v| - |k|);
      assert (|pieces| - 1) * (|v| - |k|) == (|rest| - 1) * (|v| - |k|) + (|v| - |k|);
    }
  }

  lemma {:induction false} FirstOccurrence(s: string, k: string) returns (a: string, b: string)
    requires k != [] && Contains(s, k)
    ensures s == a + k + b && FirstAtEnd(a, k)
  {
    if k <= s {
      a, b := [], s[|k|..];
      ShorterThanKey(k[..|k| - 1], k);
      assert ([] + k)[..|k| - 1] == k[..|k| - 1];
    } else {
      var a', b' := FirstOccurrence(s[1..], k);
      a, b := [s[0]] + a', b';
      assert s == [s[0]] + s[1..];
      var shorter := (a + k)[..|a| + |k| - 1];
      assert shorter[1..] == (a' + k)[..|a'| + |k| - 1];
      assert shorter <= s;
    }
  }

  lemma {:induction false} ShorterThanKey(s: string, k: string)
    requires |s| < |k|
    ensures !Contains(s, k)
  {
    if s != [] {
      ShorterThanKey(s[1..], k);
    }
  }

  /** A word without the first letter of the inserted text was there before. */
  lemma {:induction false} PrefixWasThere(s: string, k: string, v: string, w: string)
    requires k != [] && v != [] && v[0] !in w && w <= Replace(s, k, v)
    ensures w <= s
    decreases |w|
  {
    if w != [] {
      assert w[0] in w && w[0] == Replace(s, k, v)[0];
      assert w[1..] <= Replace(s[1..], k, v);
      PrefixWasThere(s[1..], k, v, w[1..]);
      assert s == [s[0]] + s[1..];
    }
  }

  /** No occurrence of `q` can begin inside `v` and go on behind it. */
  ghost predicate CannotBegin(v: string, j: nat, q: string)
    requires j < |v|
  {
    exists i :: 0 <= i < |q| && i < |v| - j && v[j + i] != q[i]
  }

  /** The end of `v` from `j` on is the end of `k`, and `q` goes on behind it. */
  predicate SameEnd(k: string, v: string, j: nat, q: string)
    requires j < |v|
  {
    |v| - j <= |k| && |v| - j < |q| && v[j..] == k[|k| - (|v| - j)..] && v[j..] == q[..|v| - j]
  }

  /** Putting `v` for `k` makes no new occurrence of `q`. */
  ghost predicate MakesNo(k: string, v: string, q: string) {
    && k != [] && v != [] && q != [] && v[0] !in q
    && forall j :: 1 <= j < |v| ==> CannotBegin(v, j, q) || SameEnd(k, v, j, q)
  }

  lemma {:induction false} ContainsBehind(s: string, n: nat, q: string)
    requires n <= |s| && Contains(s[n..], q)
    ensures Contains(s, q)
  {
    if n > 0 {
      assert s[1..][n - 1..] == s[n..];
      ContainsBehind(s[1..], n - 1, q);
    }
  }

  /** Where an occurrence in `v + x` begins: inside `v` or in `x`. */
  lemma {:induction false} ContainsSplit(v: string, x: string, q: string) returns (j: nat)
    requires Contains(v + x, q)
    ensures Contains(x, q) || (j < |v| && q <= v[j..] + x)
  {
    j := 0;
    if v == [] {
      assert v + x == x;
    } else if q <= v + x {
      assert v[0..] + x == v + x;
    } else {
      assert (v + x)[1..] == v[1..] + x;
      j := ContainsSplit(v[1..], x, q);
      if j < |v[1..]| && q <= v[1..][j..] + x {
        assert v[1..][j..] == v[j + 1..];
        j := j + 1;
      }
    }
  }

  /** An occurrence of `q` that begins inside inserted text was there before. */
  lemma OverlapWasThere(s: string, k: string, v: string, q: string, j: nat)
    requires MakesNo(k, v, q) && k <= s && j < |v| && q <= v[j..] + Replace(s[|k|..], k, v)
    ensures Contains(s, q)
  {
    var x := Replace(s[|k|..], k, v);
    assert q[0] in q && (v[j..] + x)[0] == v[j];
    forall i | 0 <= i < |q| && i < |v| - j
      ensures v[j + i] == q[i]
    {
      assert (v[j..] + x)[i] == v[j + i];
    }
    assert SameEnd(k, v, j, q);
    var n := |v| - j;
    assert q[n..] <= x by {
      assert (v[j..] + x)[n..] == x;
    }
    PrefixWasThere(s[|k|..], k, v, q[n..]);
    var from := |k| - n;
    assert s[from..] == k[from..] + s[|k|..];
    assert q <= s[from..] by {
      assert q == q[..n] + q[n..];
    }
    ContainsBehind(s, from, q);
  }

  /** A replacement that makes no new `q` keeps texts free of it. */
  lemma {:induction false} ReplaceMakesNo(s: string, k: string, v: string, q: string)
    requires MakesNo(k, v, q) && Contains(Replace(s, k, v), q)
    ensures Contains(s, q)
  {
    if s != [] {
      if k <= s {
        var x := Replace(s[|k|..], k, v);
        var j := ContainsSplit(v, x, q);
        if Contains(x, q) {
          ReplaceMakesNo(s[|k|..], k, v, q);
          ContainsBehind(s, |k|, q);
        } else {
          OverlapWasThere(s, k, v, q, j);
        }
      } else {
        var x := Replace(s[1..], k, v);
        if q <= [s[0]] + x {
          assert q <= Replace(s, k, v);
          PrefixWasThere(s, k, v, q);
        } else {
          assert ([s[0]] + x)[1..] == x;
          ReplaceMakesNo(s[1..], k, v, q);
        }
      }
    }
  }

  /** A replacement removes its key, if no inserted text can begin one. */
  lemma {:induction false} ReplaceRemoves(s: string, k: string, v: string)
    requires k != [] && v != [] && v[0] !in k && forall j :: 1 <= j < |v| ==> CannotBegin(v, j, k)
    ensures !Contains(Replace(s, k, v), k)
  {
    if s != [] {
      if k <= s {
        var x := Replace(s[|k|..], k, v);
        ReplaceRemoves(s[|k|..], k, v);
        InsertedIsClear(v, x, k, 0);
      } else {
        var x := Replace(s[1..], k, v);
        ReplaceRemoves(s[1..], k, v);
        assert ([s[0]] + x)[1..] == x;
        if k <= Replace(s, k, v) {
          PrefixWasThere(s, k, v, k);
        }
      }
    }
  }

  lemma {:induction false} InsertedIsClear(v: string, x: string, k: string, j: nat)
    requires k != [] && v != [] && j <= |v| && v[0] !in k && (forall i :: 1 <= i < |v| ==> CannotBegin(v, i, k))
    requires !Contains(x, k)
    ensures !Contains(v[j..] + x, k)
    decreases |v| - j
  {
    if j == |v| {
      assert v[j..] + x == x;
    } else {
      InsertedIsClear(v, x, k, j + 1);
      assert (v[j..] + x)[1..] == v[j + 1..] + x;
      assert (v[j..] + x)[0] == v[j];
      if j > 0 {
        assert CannotBegin(v, j, k);
        var i :| 0 <= i < |k| && i < |v| - j && v[j + i] != k[i];
        assert (v[j..] + x)[i] == v[j + i];
      } else {
        assert k[0] in k;
      }
    }
  }

  // ---------------------------------------------------------------- all five

  /** No rule makes a new occurrence of any key; only `mcc` before `uda` comes close, and
      there the `cuda` was in the text already. */
  lemma RulesMakeNoKeys(i: nat, j: nat)
    requires i < |Rules| && j < |Rules|
    ensures MakesNo(Rules[i].key, Rules[i].value, Rules[j].key)
  {
    var k, v, q := Rules[i].key, Rules[i].value, Rules[j].key;
    forall p | 1 <= p < |v|
      ensures CannotBegin(v, p, q) || SameEnd(k, v, p, q)
    {
      if i == 4 && j == 1 && p == 2 {
        assert SameEnd(k, v, p, q);
      } else {
        KeyDiffers(i, j, p);
      }
    }
    FirstLetterIsNew(i, j);
  }

  lemma FirstLetterIsNew(i: nat, j: nat)
    requires i < |Rules| && j < |Rules|
    ensures Rules[i].value[0] !in Rules[j].key
  {
  }

  lemma KeyDiffers(i: nat, j: nat, p: nat)
    requires i < |Rules| && j < |Rules| && 1 <= p < |Rules[i].value| && !(i == 4 && j == 1 && p == 2)
    ensures CannotBegin(Rules[i].value, p, Rules[j].key)
  {
    var v, q := Rules[i].value, Rules[j].key;
    assert v[p + 0] != q[0] || v[p + 1] != q[1];
  }

  lemma RulesRemoveKeys(i: nat, s: string)
    requires i < |Rules|
    ensures !Contains(Replace(s, Rules[i].key, Rules[i].value), Rules[i].key)
  {
    var k, v := Rules[i].key, Rules[i].value;
    forall p | 1 <= p < |v|
      ensures CannotBegin(v, p, k)
    {
      assert v[p + 0] != k[0];
    }
    ReplaceRemoves(s, k, v);
  }

  lemma {:induction false} RewriteRemoves(s: string, n: nat, j: nat)
    requires j < n <= |Rules|
    ensures !Contains(RewriteFirst(s, n), Rules[j].key)
  {
    var before := RewriteFirst(s, n - 1);
    if j == n - 1 {
      RulesRemoveKeys(j, before);
    } else {
      RewriteRemoves(s, n - 1, j);
      RulesMakeNoKeys(n - 1, j);
      if Contains(RewriteFirst(s, n), Rules[j].key) {
        ReplaceMakesNo(before, Rules[n - 1].key, Rules[n - 1].value, Rules[j].key);
      }
    }
  }

  /** The replacements leave none of the keys, whatever the text. */
  lemma RewriteIsClean(s: string)
    ensures Clean(Rewrite(s))
  {
    forall i | 0 <= i < |Rules|
      ensures !Contains(Rewrite(s), Rules[i].key)
    {
      RewriteRemoves(s, |Rules|, i);
    }
  }

  lemma {:induction false} CleanIsKept(s: string, n: nat)
    requires Clean(s) && n <= |Rules|
    ensures RewriteFirst(s, n) == s
  {
    if n > 0 {
      CleanIsKept(s, n - 1);
      NothingToReplace(s, Rules[n - 1].key, Rules[n - 1].value);
    }
  }

  /** Exactly the texts without a key are left as they are. */
  lemma RewriteKeepsIff(s: string)
    ensures Rewrite(s) == s <==> Clean(s)
  {
    RewriteIsClean(s);
    if Clean(s) {
      CleanIsKept(s, |Rules|);
    }
  }

  /** The text has the key of rule `i` once, behind `a` and before `b`, and no other key. */
  ghost predicate OneKey(a: string, i: nat, b: string)
    requires i < |Rules|
  {
    var k := Rules[i].key;
    && (forall j :: 0 <= j < |Rules| && j != i ==> !Contains(a + k + b, Rules[j].key))
    && FirstAtEnd(a, k) && !Contains(b, k)
  }

  /** Such a text keeps everything but the key. */
  lemma RewriteKeepsTheRest(a: string, i: nat, b: string)
    requires i < |Rules| && OneKey(a, i, b)
    ensures Rewrite(a + Rules[i].key + b) == a + Rules[i].value + b
  {
    RewriteOneKey(a, i, b, |Rules|);
  }

  lemma {:induction false} RewriteOneKey(a: string, i: nat, b: string, n: nat)
    requires i < |Rules| && OneKey(a, i, b) && n <= |Rules|
    ensures RewriteFirst(a + Rules[i].key + b, n) == if n <= i then a + Rules[i].key + b else a + Rules[i].value + b
  {
    var s := a + Rules[i].key + b;
    if n > 0 {
      RewriteOneKey(a, i, b, n - 1);
      var k, v := Rules[n - 1].key, Rules[n - 1].value;
      if n - 1 < i {
        NothingToReplace(s, k, v);
      } else if n - 1 == i {
        ReplaceAtFirst(a, k, b, v);
        NothingToReplace(b, k, v);
      } else {
        RulesMakeNoKeys(i, n - 1);
        var after := a + Rules[i].value + b;
        ReplaceAtFirst(a, Rules[i].key, b, Rules[i].value);
        NothingToReplace(b, Rules[i].key, Rules[i].value);
        assert Replace(s, Rules[i].key, Rules[i].value) == after;
        if Contains(after, k) {
          ReplaceMakesNo(s, Rules[i].key, Rules[i].value, k);
        }
        NothingToReplace(after, k, v);
      }
    }
  }

  /** The loop over the rules; a rule is applied only if its key occurs. */
  method RewriteText(s: string) returns (r: string)
    ensures r == Rewrite(s) && Clean(r)
    ensures r == s <==> Clean(s)
  {
    r := s;
    for i := 0 to |Rules|
      invariant r == RewriteFirst(s, i)
    {
      if Contains(r, Rules[i].key) {
        r := Replace(r, Rules[i].key, Rules[i].value);
      } else {
        NothingToReplace(r, Rules[i].key, Rules[i].value);
      }
    }
    RewriteIsClean(s);
    RewriteKeepsIff(s);
  }

  /** What the five words become. */
  lemma WordsBecome()
    ensures Rewrite("CUDA") == "MUSA" && Rewrite("cuda") == "musa"
    ensures Rewrite("NCCL") == "MCCL" && Rewrite("nccl") == "mccl" && Rewrite("nvcc") == "mcc"
  {
    forall i | 0 <= i < |Rules|
      ensures Rewrite(Rules[i].key) == Rules[i].value
    {
      KeysAreApart(i);
      RewriteKeepsTheRest("", i, "");
      assert "" + Rules[i].key + "" == Rules[i].key;
      assert "" + Rules[i].value + "" == Rules[i].value;
    }
    assert Rules[0].key == "CUDA" && Rules[1].key == "cuda" && Rules[2].key == "NCCL" && Rules[3].key == "nccl" && Rules[4].key == "nvcc";
  }

  lemma KeysAreApart(i: nat)
    requires i < |Rules|
    ensures OneKey("", i, "")
  {
    var k := Rules[i].key;
    forall j | 0 <= j < |Rules| && j != i
      ensures !Contains("" + k + "", Rules[j].key)
    {
      assert "" + k + "" == k;
      NotTheKey(i, j);
    }
    ShorterThanKey(k[..|k| - 1], k);
    assert ("" + k)[..|""| + |k| - 1] == k[..|k| - 1];
    ShorterThanKey("", k);
  }

  lemma NotTheKey(i: nat, j: nat)
    requires i < |Rules| && j < |Rules| && i != j
    ensures !Contains(Rules[i].key, Rules[j].key)
  {
    var k, q := Rules[i].key, Rules[j].key;
    assert k[0] != q[0] || k[1] != q[1];
    ShorterThanKey(k[1..], q);
  }
}
