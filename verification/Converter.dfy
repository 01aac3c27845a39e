/**
 The rewriting of a syntax tree from CUDA to MUSA: texts everywhere, attributes
 and modules in import statements.
 */
module Converter {
  import opened Options
  import opened TextRewriting

  datatype TextKind = Comment | SimpleString | FormattedStringText

  /** An expression or a token. `Group` is any other node, with its parts. */
  datatype Expr =
    | Name(name: string)
    | Text(kind: TextKind, text: string)
    | Attribute(value: Expr, attr: string)
    | Group(tag: string, parts: seq<Expr>)

  /** A statement or a node with statements below it. */
  datatype Node =
    | Plain(expr: Expr)
    | Import(names: seq<Expr>)
    | ImportFrom(from: Option<Expr>, names: seq<Expr>)
    | Suite(tag: string, body: seq<Node>)

  // ---------------------------------------------------------------- dotted names

  function Split(s: string): (parts: seq<string>)
    ensures |parts| > 0
  {
    if s == [] then [""]
    else if s[0] == '.' then [""] + Split(s[1..])
    else
      var rest := Split(s[1..]);
      [[s[0]] + rest[0]] + rest[1..]
  }

  /** The attribute for two or more names. */
  function FromParts(parts: seq<string>): Expr
    requires |parts| >= 2
  {
    Attribute(if |parts| == 2 then Name(parts[0]) else FromParts(parts[..|parts| - 1]), parts[|parts| - 1])
  }

  /** `None` is the assertion that there are at least two names. */
  function ParseAttribute(s: string): Option<Expr> {
    if |Split(s)| >= 2 then Some(FromParts(Split(s))) else None
  }

  /** The source text of a chain of names. */
  function Dotted(e: Expr): string {
    match e
    case Name(n) => n
    case Attribute(v, a) => Dotted(v) + "." + a
    case _ => ""
  }

  function Join(parts: seq<string>): string {
    if parts == [] then "" else if |parts| == 1 then parts[0] else Join(parts[..|parts| - 1]) + "." + parts[|parts| - 1]
  }

  lemma {:induction false} JoinFirst(c: string, parts: seq<string>)
    requires |parts| > 0
    ensures Join([c + parts[0]] + parts[1..]) == c + Join(parts)
  {
    var longer := [c + parts[0]] + parts[1..];
    if |parts| > 1 {
      var init := parts[..|parts| - 1];
      JoinFirst(c, init);
      assert longer[..|longer| - 1] == [c + init[0]] + init[1..];
    }
  }

  lemma {:induction false} JoinBehindEmpty(parts: seq<string>)
    requires |parts| > 0
    ensures Join([""] + parts) == "." + Join(parts)
  {
    var longer := [""] + parts;
    if |parts| == 1 {
      assert longer[..1] == [""];
    } else {
      JoinBehindEmpty(parts[..|parts| - 1]);
      assert longer[..|longer| - 1] == [""] + parts[..|parts| - 1];
    }
  }

  lemma {:induction false} SplitJoins(s: string)
    ensures Join(Split(s)) == s
  {
    if s != [] {
      SplitJoins(s[1..]);
      if s[0] == '.' {
        JoinBehindEmpty(Split(s[1..]));
      } else {
        JoinFirst([s[0]], Split(s[1..]));
      }
    }
  }

  lemma {:induction false} PartsAreDotted(parts: seq<string>)
    requires |parts| >= 2
    ensures Dotted(FromParts(parts)) == Join(parts)
  {
    if |parts| > 2 {
      PartsAreDotted(parts[..|parts| - 1]);
    } else {
      assert parts[..1] == [parts[0]];
    }
  }

  lemma {:induction false} SplitCount(s: string)
    ensures |Split(s)| >= 2 <==> '.' in s
  {
    if s != [] {
      SplitCount(s[1..]);
      assert s == [s[0]] + s[1..];
    }
  }

  /** Every string with a dot, and no other, becomes an attribute, whose text is the string. */
  lemma AttributeRoundTrip(s: string)
    ensures ParseAttribute(s).Some? <==> '.' in s
    ensures ParseAttribute(s).Some? ==> Dotted(ParseAttribute(s).value) == s
  {
    SplitCount(s);
    SplitJoins(s);
    if |Split(s)| >= 2 {
      PartsAreDotted(Split(s));
    }
  }

  // ---------------------------------------------------------------- the rules

  const TorchMusa := Name("torch_musa")

  const CppExtension := Attribute(Attribute(Name("torch"), "utils"), "cpp_extension")

  const MusaExtension := Attribute(Attribute(TorchMusa, "utils"), "musa_extension")

  /** The attributes that are shrunk inside import statements. */
  predicate Shrinks(e: Expr) {
    e == Attribute(Name("torch"), "musa") || e == Attribute(Name("torch"), "cuda")
  }

  function ConvertExpr(e: Expr, importing: bool): Expr {
    match e
    case Name(n) => Name(Rewrite(n))
    case Text(k, s) => Text(k, Rewrite(s))
    case Attribute(v, a) =>
      var updated := Attribute(ConvertExpr(v, importing), Rewrite(a));
      if importing && Shrinks(updated) then TorchMusa else updated
    case Group(tag, parts) => Group(tag, ConvertExprs(parts, importing))
  }

  function ConvertExprs(es: seq<Expr>, importing: bool): (r: seq<Expr>)
    ensures |r| == |es|
  {
    if es == [] then [] else ConvertExprs(es[..|es| - 1], importing) + [ConvertExpr(es[|es| - 1], importing)]
  }

  function ConvertModule(e: Option<Expr>): Option<Expr> {
    match e
    case None => None
    case Some(x) =>
      var updated := ConvertExpr(x, true);
      Some(if updated == CppExtension then MusaExtension else updated)
  }

  function Convert(n: Node): Node {
    match n
    case Plain(e) => Plain(ConvertExpr(e, false))
    case Import(names) => Import(ConvertExprs(names, true))
    case ImportFrom(from, names) => ImportFrom(ConvertModule(from), ConvertExprs(names, true))
    case Suite(tag, body) => Suite(tag, ConvertAll(body))
  }

  function ConvertAll(ns: seq<Node>): (r: seq<Node>)
    ensures |r| == |ns|
  {
    if ns == [] then [] else ConvertAll(ns[..|ns| - 1]) + [Convert(ns[|ns| - 1])]
  }

  // ---------------------------------------------------------------- the normal form

  /** No text has a key and, inside an import, nothing is left to shrink. */
  ghost predicate NormalExpr(e: Expr, importing: bool) {
    match e
    case Name(n) => Clean(n)
    case Text(_, s) => Clean(s)
    case Attribute(v, a) => NormalExpr(v, importing) && Clean(a) && !(importing && Shrinks(e))
    case Group(_, parts) => forall p :: p in parts ==> NormalExpr(p, importing)
  }

  ghost predicate Normal(n: Node) {
    match n
    case Plain(e) => NormalExpr(e, false)
    case Import(names) => forall e :: e in names ==> NormalExpr(e, true)
    case ImportFrom(from, names) =>
      && (from.Some? ==> NormalExpr(from.value, true) && from.value != CppExtension)
      && forall e :: e in names ==> NormalExpr(e, true)
    case Suite(_, body) => forall b :: b in body ==> Normal(b)
  }

  /** A key does not occur in a text that lacks one of its letters. */
  lemma {:induction false} MissingLetter(s: string, k: string, c: char)
    requires c in k && c !in s
    ensures !Contains(s, k)
  {
    var i :| 0 <= i < |k| && k[i] == c;
    assert i < |s| ==> s[i] in s && s[i] != k[i];
    if s != [] {
      MissingLetter(s[1..], k, c);
    }
  }

  lemma CleanWithout(s: string, letters: string)
    requires |letters| == |Rules| && forall i :: 0 <= i < |Rules| ==> letters[i] in Rules[i].key && letters[i] !in s
    ensures Clean(s)
  {
    forall i | 0 <= i < |Rules|
      ensures !Contains(s, Rules[i].key)
    {
      MissingLetter(s, Rules[i].key, letters[i]);
    }
  }

  lemma TorchMusaIsClean()
    ensures Clean("torch_musa")
  {
    hide Clean;
    CleanWithout("torch_musa", "UdNnv");
  }

  lemma UtilsIsClean()
    ensures Clean("utils")
  {
    hide Clean;
    CleanWithout("utils", "UdNnv");
  }

  lemma MusaExtensionIsClean()
    ensures Clean("musa_extension")
  {
    hide Clean;
    CleanWithout("musa_extension", "UdNcv");
  }

  lemma TargetsAreClean()
    ensures Clean("torch_musa") && Clean("utils") && Clean("musa_extension")
  {
    TorchMusaIsClean();
    UtilsIsClean();
    MusaExtensionIsClean();
  }

  lemma {:induction false} ConvertedAt(es: seq<Expr>, importing: bool, i: nat)
    requires i < |es|
    ensures ConvertExprs(es, importing)[i] == ConvertExpr(es[i], importing)
  {
    if i < |es| - 1 {
      ConvertedAt(es[..|es| - 1], importing, i);
    }
  }

  lemma {:induction false} NodesConvertedAt(ns: seq<Node>, i: nat)
    requires i < |ns|
    ensures ConvertAll(ns)[i] == Convert(ns[i])
  {
    if i < |ns| - 1 {
      NodesConvertedAt(ns[..|ns| - 1], i);
    }
  }

  lemma {:induction false} ExprIsNormal(e: Expr, importing: bool)
    ensures NormalExpr(ConvertExpr(e, importing), importing)
  {
    hide Rewrite;
    hide Clean;
    match e
    case Name(n) => RewriteIsClean(n);
    case Text(_, s) => RewriteIsClean(s);
    case Attribute(v, a) =>
      ExprIsNormal(v, importing);
      RewriteIsClean(a);
      TargetsAreClean();
    case Group(_, parts) => ExprsAreNormal(parts, importing);
  }

  lemma {:induction false} ExprsAreNormal(es: seq<Expr>, importing: bool)
    ensures forall x :: x in ConvertExprs(es, importing) ==> NormalExpr(x, importing)
  {
    forall i | 0 <= i < |es|
      ensures NormalExpr(ConvertExprs(es, importing)[i], importing)
    {
      ConvertedAt(es, importing, i);
      ExprIsNormal(es[i], importing);
    }
  }

  /** Every converted tree is in normal form. */
  lemma {:induction false} ConvertIsNormal(n: Node)
    ensures Normal(Convert(n))
  {
    hide Clean;
    match n
    case Plain(e) => ExprIsNormal(e, false);
    case Import(names) => ExprsAreNormal(names, true);
    case ImportFrom(from, names) =>
      ExprsAreNormal(names, true);
      if from.Some? {
        ExprIsNormal(from.value, true);
        TargetsAreClean();
        assert NormalExpr(Attribute(TorchMusa, "utils"), true);
        assert NormalExpr(MusaExtension, true);
      }
    case Suite(tag, body) =>
      forall i | 0 <= i < |body|
        ensures Normal(ConvertAll(body)[i])
      {
        NodesConvertedAt(body, i);
        ConvertIsNormal(body[i]);
      }
  }

  lemma {:induction false} NormalExprIsKept(e: Expr, importing: bool)
    requires NormalExpr(e, importing)
    ensures ConvertExpr(e, importing) == e
  {
    hide Rewrite;
    hide Clean;
    match e
    case Name(n) => RewriteKeepsIff(n);
    case Text(_, s) => RewriteKeepsIff(s);
    case Attribute(v, a) =>
      NormalExprIsKept(v, importing);
      RewriteKeepsIff(a);
    case Group(_, parts) => NormalExprsAreKept(parts, importing);
  }

  lemma {:induction false} NormalExprsAreKept(es: seq<Expr>, importing: bool)
    requires forall x :: x in es ==> NormalExpr(x, importing)
    ensures ConvertExprs(es, importing) == es
  {
    forall i | 0 <= i < |es|
      ensures ConvertExprs(es, importing)[i] == es[i]
    {
      ConvertedAt(es, importing, i);
      NormalExprIsKept(es[i], importing);
    }
  }

  lemma {:induction false} NormalIsKept(n: Node)
    requires Normal(n)
    ensures Convert(n) == n
  {
    match n
    case Plain(e) => NormalExprIsKept(e, false);
    case Import(names) => NormalExprsAreKept(names, true);
    case ImportFrom(from, names) =>
      NormalExprsAreKept(names, true);
      if from.Some? {
        NormalExprIsKept(from.value, true);
      }
    case Suite(tag, body) =>
      forall i | 0 <= i < |body|
        ensures ConvertAll(body)[i] == body[i]
      {
        NodesConvertedAt(body, i);
        NormalIsKept(body[i]);
      }
      assert ConvertAll(body) == body;
  }

  /** Conversion leaves exactly the trees in normal form alone, and is done after one pass. */
  lemma ConvertKeepsIff(n: Node)
    ensures Convert(n) == n <==> Normal(n)
    ensures Convert(Convert(n)) == Convert(n)
  {
    ConvertIsNormal(n);
    NormalIsKept(Convert(n));
    if Normal(n) {
      NormalIsKept(n);
    }
  }

  /** Names are rewritten before the attribute around them is looked at: of the two shrinking
      rules, the one for `torch.cuda` never applies. */
  lemma CudaRuleIsDead(v: Expr, a: string, importing: bool)
    ensures Attribute(ConvertExpr(v, importing), Rewrite(a)) != Attribute(Name("torch"), "cuda")
  {
    RewriteIsClean(a);
    assert Contains("cuda", Rules[1].key);
  }

  // ---------------------------------------------------------------- what is kept

  /** The texts of an expression, in order. */
  function Texts(e: Expr): seq<string> {
    match e
    case Name(n) => [n]
    case Text(_, s) => [s]
    case Attribute(v, a) => Texts(v) + [a]
    case Group(_, parts) => AllTexts(parts)
  }

  function AllTexts(es: seq<Expr>): seq<string> {
    if es == [] then [] else AllTexts(es[..|es| - 1]) + Texts(es[|es| - 1])
  }

  /** The expression without its texts. */
  function Bare(e: Expr): Expr {
    match e
    case Name(_) => Name("")
    case Text(k, _) => Text(k, "")
    case Attribute(v, _) => Attribute(Bare(v), "")
    case Group(tag, parts) => Group(tag, AllBare(parts))
  }

  function AllBare(es: seq<Expr>): seq<Expr> {
    if es == [] then [] else AllBare(es[..|es| - 1]) + [Bare(es[|es| - 1])]
  }

  function RewriteEach(texts: seq<string>): (r: seq<string>) {
    seq(|texts|, i requires 0 <= i < |texts| => Rewrite(texts[i]))
  }

  lemma RewriteEachJoins(a: seq<string>, b: seq<string>)
    ensures RewriteEach(a + b) == RewriteEach(a) + RewriteEach(b)
  {
    hide Rewrite;
  }

  /** Outside imports every text is rewritten in its place, and nothing else changes. */
  lemma {:induction false} PlainKeepsShape(e: Expr)
    ensures Bare(ConvertExpr(e, false)) == Bare(e)
    ensures Texts(ConvertExpr(e, false)) == RewriteEach(Texts(e))
  {
    hide Rewrite;
    match e
    case Name(n) =>
    case Text(_, s) =>
    case Attribute(v, a) =>
      PlainKeepsShape(v);
      RewriteEachJoins(Texts(v), [a]);
    case Group(_, parts) => PlainKeepsShapes(parts);
  }

  lemma {:induction false} PlainKeepsShapes(es: seq<Expr>)
    ensures AllBare(ConvertExprs(es, false)) == AllBare(es)
    ensures AllTexts(ConvertExprs(es, false)) == RewriteEach(AllTexts(es))
  {
    if es != [] {
      var init, last := es[..|es| - 1], es[|es| - 1];
      PlainKeepsShapes(init);
      PlainKeepsShape(last);
      RewriteEachJoins(AllTexts(init), Texts(last));
      var converted := ConvertExprs(es, false);
      assert converted[..|converted| - 1] == ConvertExprs(init, false);
    }
  }

  /** The attributes that are to be shrunk, replaced from the outside in. */
  function ShrinkAll(e: Expr): Expr {
    if Shrinks(e) then TorchMusa
    else match e
      case Attribute(v, a) => Attribute(ShrinkAll(v), a)
      case Group(tag, parts) => Group(tag, ShrinkEach(parts))
      case _ => e
  }

  function ShrinkEach(es: seq<Expr>): (r: seq<Expr>)
    ensures |r| == |es|
  {
    if es == [] then [] else ShrinkEach(es[..|es| - 1]) + [ShrinkAll(es[|es| - 1])]
  }

  /** Inside imports the texts are rewritten in the same way, and then attributes are shrunk. */
  lemma {:induction false} ImportShrinksAfter(e: Expr)
    ensures ConvertExpr(e, true) == ShrinkAll(ConvertExpr(e, false))
  {
    hide Rewrite;
    match e
    case Name(n) =>
    case Text(_, s) =>
    case Attribute(v, a) =>
      ImportShrinksAfter(v);
      ShrinkKeepsTorch(ConvertExpr(v, false));
    case Group(_, parts) => ImportShrinksEach(parts);
  }

  lemma {:induction false} ImportShrinksEach(es: seq<Expr>)
    ensures ConvertExprs(es, true) == ShrinkEach(ConvertExprs(es, false))
  {
    if es != [] {
      ImportShrinksEach(es[..|es| - 1]);
      ImportShrinksAfter(es[|es| - 1]);
      var converted := ConvertExprs(es, false);
      assert converted[..|converted| - 1] == ConvertExprs(es[..|es| - 1], false);
    }
  }

  lemma ShrinkKeepsTorch(e: Expr)
    ensures ShrinkAll(e) == Name("torch") <==> e == Name("torch")
  {
    assert "torch_musa"[..5] == "torch" && |"torch_musa"| != |"torch"|;
  }

  /** An expression with the place it stands in. */
  datatype Place = Ordinary(expr: Expr) | Imported(expr: Expr) | Module(expr: Expr)

  /** All expressions of a tree in order. */
  function Places(n: Node): seq<Place> {
    match n
    case Plain(e) => [Ordinary(e)]
    case Import(names) => ImportedPlaces(names)
    case ImportFrom(from, names) => (if from.Some? then [Module(from.value)] else []) + ImportedPlaces(names)
    case Suite(_, body) => AllPlaces(body)
  }

  function AllPlaces(ns: seq<Node>): seq<Place> {
    if ns == [] then [] else AllPlaces(ns[..|ns| - 1]) + Places(ns[|ns| - 1])
  }

  function ImportedPlaces(es: seq<Expr>): (r: seq<Place>) {
    seq(|es|, i requires 0 <= i < |es| => Imported(es[i]))
  }

  /** The tree without its expressions. */
  function Outline(n: Node): Node {
    match n
    case Plain(_) => Plain(Name(""))
    case Import(names) => Import(Nameless(|names|))
    case ImportFrom(from, names) => ImportFrom(if from.Some? then Some(Name("")) else None, Nameless(|names|))
    case Suite(tag, body) => Suite(tag, AllOutlines(body))
  }

  function AllOutlines(ns: seq<Node>): seq<Node> {
    if ns == [] then [] else AllOutlines(ns[..|ns| - 1]) + [Outline(ns[|ns| - 1])]
  }

  function Nameless(n: nat): seq<Expr> {
    seq(n, _ => Name(""))
  }

  /** What an expression becomes in its place: only a module that comes out as the torch
      extension module is replaced as a whole. */
  function ConvertPlace(p: Place): Place {
    match p
    case Ordinary(e) => Ordinary(ConvertExpr(e, false))
    case Imported(e) => Imported(ConvertExpr(e, true))
    case Module(e) => Module(if ConvertExpr(e, true) == CppExtension then MusaExtension else ConvertExpr(e, true))
  }

  function ConvertPlaces(ps: seq<Place>): (r: seq<Place>) {
    seq(|ps|, i requires 0 <= i < |ps| => ConvertPlace(ps[i]))
  }

  lemma ConvertPlacesJoin(a: seq<Place>, b: seq<Place>)
    ensures ConvertPlaces(a + b) == ConvertPlaces(a) + ConvertPlaces(b)
  {
    hide ConvertPlace;
  }

  lemma ImportedPlacesConvert(es: seq<Expr>)
    ensures ImportedPlaces(ConvertExprs(es, true)) == ConvertPlaces(ImportedPlaces(es))
  {
    forall i | 0 <= i < |es|
      ensures ConvertExprs(es, true)[i] == ConvertExpr(es[i], true)
    {
      ConvertedAt(es, true, i);
    }
  }

  /** A converted tree has the statements it had, in order, and each expression is converted in
      its place. */
  lemma {:induction false} ConvertKeepsOutline(n: Node)
    ensures Outline(Convert(n)) == Outline(n) && Places(Convert(n)) == ConvertPlaces(Places(n))
  {
    hide ConvertExpr;
    match n
    case Plain(e) =>
    case Import(names) => ImportedPlacesConvert(names);
    case ImportFrom(from, names) =>
      ImportedPlacesConvert(names);
      ConvertPlacesJoin(if from.Some? then [Module(from.value)] else [], ImportedPlaces(names));
    case Suite(tag, body) => ConvertKeepsOutlines(body);
  }

  lemma {:induction false} ConvertKeepsOutlines(ns: seq<Node>)
    ensures AllOutlines(ConvertAll(ns)) == AllOutlines(ns) && AllPlaces(ConvertAll(ns)) == ConvertPlaces(AllPlaces(ns))
  {
    if ns != [] {
      var init, last := ns[..|ns| - 1], ns[|ns| - 1];
      ConvertKeepsOutlines(init);
      ConvertKeepsOutline(last);
      ConvertPlacesJoin(AllPlaces(init), Places(last));
      var converted := ConvertAll(ns);
      assert converted[..|converted| - 1] == ConvertAll(init);
    }
  }

  // ---------------------------------------------------------------- the visitor

  class ReplacementTransformer {
    var inImport: bool
    var inImportFrom: bool

    constructor ()
      ensures !inImport && !inImportFrom
    {
      inImport, inImportFrom := false, false;
    }

    /** Parts first, then the node: the rules see the updated parts. */
    method VisitExpr(e: Expr) returns (r: Expr)
      ensures r == ConvertExpr(e, inImport || inImportFrom)
      decreases e
    {
      match e {
        case Name(n) =>
          var s := RewriteText(n);
          r := Name(s);
        case Text(k, t) =>
          var s := RewriteText(t);
          r := Text(k, s);
        case Attribute(v, a) =>
          var updated := VisitExpr(v);
          var s := RewriteText(a);
          r := Attribute(updated, s);
          if inImport || inImportFrom {
            if r == Attribute(Name("torch"), "musa") || r == Attribute(Name("torch"), "cuda") {
              r := TorchMusa;
            }
          }
        case Group(tag, parts) =>
          var updated := VisitExprs(parts);
          r := Group(tag, updated);
      }
    }

    method VisitExprs(es: seq<Expr>) returns (r: seq<Expr>)
      ensures r == ConvertExprs(es, inImport || inImportFrom)
      decreases es
    {
      r := [];
      for i := 0 to |es|
        invariant r == ConvertExprs(es[..i], inImport || inImportFrom)
      {
        var x := VisitExpr(es[i]);
        assert es[..i + 1][..i] == es[..i];
        r := r + [x];
      }
      assert es[..|es|] == es;
    }

    method Visit(n: Node) returns (r: Node)
      requires !inImport && !inImportFrom
      modifies this
      ensures !inImport && !inImportFrom
      ensures r == Convert(n) && Normal(r)
      decreases n
    {
      ConvertIsNormal(n);
      hide Normal;
      match n {
        case Plain(e) =>
          var x := VisitExpr(e);
          r := Plain(x);
        case Import(names) =>
          inImport := true;
          var updated := VisitExprs(names);
          inImport := false;
          r := Import(updated);
        case ImportFrom(from, names) =>
          inImportFrom := true;
          var x := from;
          if from.Some? {
            var y := VisitExpr(from.value);
            x := Some(y);
          }
          var updated := VisitExprs(names);
          inImportFrom := false;
          if x == Some(CppExtension) {
            x := Some(MusaExtension);
          }
          r := ImportFrom(x, updated);
        case Suite(tag, body) =>
          var updated := [];
          for i := 0 to |body|
            invariant !inImport && !inImportFrom
            invariant updated == ConvertAll(body[..i])
          {
            var x := Visit(body[i]);
            assert body[..i + 1][..i] == body[..i];
            updated := updated + [x];
          }
          assert body[..|body|] == body;
          r := Suite(tag, updated);
      }
    }
  }
}
