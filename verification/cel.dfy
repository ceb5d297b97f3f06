/** The part of the Common Expression Language the guard uses: values, syntax
    trees, evaluation as laid down in the "Field Selection" and "Logical
    Operators" sections of the CEL language definition, and a parser for the
    disjunctions of presence tests that the guard generator writes. */
module Cel {
  import opened Kube
  import opened Text

  datatype Value =
    | Null
    | Bool(b: bool)
    | Scalar(text: string)
    | List(elements: seq<Value>)
    | Object(fields: map<string, Value>)

  datatype Result = Val(value: Value) | Error

  const TRUE := Val(Bool(true))
  const FALSE := Val(Bool(false))

  datatype Expr =
    | NullLiteral
    | Ident(name: string)
    | Select(operand: Expr, field: string)
    | Has(operand: Expr, field: string)
    | EqualsNull(operand: Expr)
    | Not(operand: Expr)
    | And(left: Expr, right: Expr)
    | Or(left: Expr, right: Expr)
    | Conditional(test: Expr, yes: Expr, no: Expr)

  /** Disjunction: true absorbs errors on either side. */
  function OrResult(l: Result, r: Result): Result {
    if l == TRUE || r == TRUE then TRUE
    else if l == FALSE && r == FALSE then FALSE
    else Error
  }

  /** Conjunction: false absorbs errors on either side. */
  function AndResult(l: Result, r: Result): Result {
    if l == FALSE || r == FALSE then FALSE
    else if l == TRUE && r == TRUE then TRUE
    else Error
  }

  function NotResult(r: Result): Result {
    if r == TRUE then FALSE else if r == FALSE then TRUE else Error
  }

  /** Selecting a field that is not there, or from a non-object, is an error. */
  function SelectResult(r: Result, field: string): Result {
    if r.Val? && r.value.Object? && field in r.value.fields then Val(r.value.fields[field]) else Error
  }

  /** The presence test: defined on objects only. */
  function HasResult(r: Result, field: string): Result {
    if r.Val? && r.value.Object? then Val(Bool(field in r.value.fields)) else Error
  }

  function Eval(e: Expr, env: map<string, Value>): Result {
    match e
    case NullLiteral => Val(Null)
    case Ident(n) => if n in env then Val(env[n]) else Error
    case Select(o, f) => SelectResult(Eval(o, env), f)
    case Has(o, f) => HasResult(Eval(o, env), f)
    case EqualsNull(o) =>
      var r := Eval(o, env);
      if r.Val? then Val(Bool(r.value.Null?)) else Error
    case Not(o) => NotResult(Eval(o, env))
    case And(l, r) => AndResult(Eval(l, env), Eval(r, env))
    case Or(l, r) => OrResult(Eval(l, env), Eval(r, env))
    case Conditional(t, y, n) =>
      var r := Eval(t, env);
      if r == TRUE then Eval(y, env) else if r == FALSE then Eval(n, env) else Error
  }

  // ---- Paths and disjunctions ----

  /** The selection chain `a.b.c`. */
  function PathExpr(parts: seq<string>): Expr
    requires parts != []
  {
    if |parts| == 1 then Ident(parts[0])
    else Select(PathExpr(parts[..|parts| - 1]), parts[|parts| - 1])
  }

  function OrAll(terms: seq<Expr>): Expr
    requires terms != []
  {
    if |terms| == 1 then terms[0]
    else Or(OrAll(terms[..|terms| - 1]), terms[|terms| - 1])
  }

  /** A disjunction is true if some term is, false if all are, else an error. */
  lemma {:induction false} OrAllResult(terms: seq<Expr>, env: map<string, Value>)
    requires terms != []
    ensures Eval(OrAll(terms), env) == TRUE <==> exists i :: 0 <= i < |terms| && Eval(terms[i], env) == TRUE
    ensures |terms| > 1 ==>
            (Eval(OrAll(terms), env) == FALSE <==> forall i :: 0 <= i < |terms| ==> Eval(terms[i], env) == FALSE)
    ensures |terms| > 1 ==> Eval(OrAll(terms), env) in {TRUE, FALSE, Error}
  {
    if |terms| > 1 {
      var init, last := terms[..|terms| - 1], terms[|terms| - 1];
      OrAllResult(init, env);
      assert forall i :: 0 <= i < |terms| ==> terms[i] == if i < |init| then init[i] else last;
      if exists i :: 0 <= i < |terms| && Eval(terms[i], env) == TRUE {
        var i :| 0 <= i < |terms| && Eval(terms[i], env) == TRUE;
        assert i < |init| ==> Eval(init[i], env) == TRUE;
      }
      if Eval(last, env) == TRUE {
        assert Eval(terms[|terms| - 1], env) == TRUE;
      }
      if Eval(OrAll(init), env) == TRUE {
        var i :| 0 <= i < |init| && Eval(init[i], env) == TRUE;
        assert Eval(terms[i], env) == TRUE;
      }
    }
  }

  // ---- Concrete syntax of presence guards ----

  predicate IdentChar(c: char) {
    'a' <= c <= 'z' || 'A' <= c <= 'Z' || '0' <= c <= '9' || c == '_'
  }

  /** The literals and the operator that CEL's grammar keeps out of selectors. */
  predicate Keyword(s: string) {
    s == "true" || s == "false" || s == "null" || s == "in"
  }

  predicate Identifier(s: string) {
    && s != "" && !('0' <= s[0] <= '9') && !Keyword(s)
    && forall i :: 0 <= i < |s| ==> IdentChar(s[i])
  }

  predicate Identifiers(parts: seq<string>) {
    forall i :: 0 <= i < |parts| ==> Identifier(parts[i])
  }

  const HAS_OPEN := "!has("
  const HAS_CLOSE := ")"
  const IS_NULL := " == null"
  const OR := " || "

  /** `!has(a.b.c)` or `a.b == null`. */
  function ParseTerm(s: string): Option<Expr> {
    if StartsWith(s, HAS_OPEN) && EndsWith(s, HAS_CLOSE) && |s| > |HAS_OPEN| + |HAS_CLOSE| then
      var parts := Split(s[|HAS_OPEN|..|s| - |HAS_CLOSE|], ".");
      if |parts| >= 2 && Identifiers(parts) then
        Some(Not(Has(PathExpr(parts[..|parts| - 1]), parts[|parts| - 1])))
      else None
    else if EndsWith(s, IS_NULL) then
      var parts := Split(s[..|s| - |IS_NULL|], ".");
      if Identifiers(parts) then Some(EqualsNull(PathExpr(parts))) else None
    else None
  }

  function ParseTerms(texts: seq<string>): Option<seq<Expr>> {
    if texts == [] then Some([])
    else
      var first := ParseTerm(texts[0]);
      var rest := ParseTerms(texts[1..]);
      if first.Some? && rest.Some? then Some([first.value] + rest.value) else None
  }

  /** A disjunction of terms. */
  function Parse(s: string): Option<Expr> {
    var terms := ParseTerms(Split(s, OR));
    if terms.Some? && terms.value != [] then Some(OrAll(terms.value)) else None
  }

  lemma DotApart(s: string)
    requires Identifier(s)
    ensures Apart(s, ".")
  {
    forall tail: string, i | 0 <= i < |s|
      ensures !StartsWith((s + tail)[i..], ".")
    {
      assert (s + tail)[i..][0] == s[i] && IdentChar(s[i]);
    }
  }

  lemma OrApart(s: string)
    requires '|' !in s
    ensures Apart(s, OR)
  {
    forall tail: string, i | 0 <= i < |s| && StartsWith((s + tail)[i..], OR)
      ensures !(tail == "" || StartsWith(tail, OR))
    {
      var t := (s + tail)[i..];
      assert t[..|OR|][1] == '|' && t[1] == (s + tail)[i + 1];
      assert i + 1 == |s|;
      assert tail != "" && tail[0] == '|';
    }
  }

  /** A dotted chain of identifiers parses back into its parts. */
  lemma SplitDotted(parts: seq<string>)
    requires parts != [] && Identifiers(parts)
    ensures Split(Join(parts, "."), ".") == parts
  {
    forall i | 0 <= i < |parts| ensures Apart(parts[i], ".") { DotApart(parts[i]); }
    SplitJoin(parts, ".");
  }

  lemma ParseNotHas(parts: seq<string>)
    requires |parts| >= 2 && Identifiers(parts)
    ensures ParseTerm(HAS_OPEN + Join(parts, ".") + HAS_CLOSE)
            == Some(Not(Has(PathExpr(parts[..|parts| - 1]), parts[|parts| - 1])))
  {
    var path := Join(parts, ".");
    var s := HAS_OPEN + path + HAS_CLOSE;
    SplitDotted(parts);
    assert |path| > 0 by { assert Split("", ".") == [""]; }
    assert s[..|HAS_OPEN|] == HAS_OPEN && s[|s| - |HAS_CLOSE|..] == HAS_CLOSE;
    assert s[|HAS_OPEN|..|s| - |HAS_CLOSE|] == path;
  }

  lemma ParseIsNull(parts: seq<string>)
    requires parts != [] && Identifiers(parts)
    ensures ParseTerm(Join(parts, ".") + IS_NULL) == Some(EqualsNull(PathExpr(parts)))
  {
    var path := Join(parts, ".");
    var s := path + IS_NULL;
    SplitDotted(parts);
    assert s[|s| - |IS_NULL|..] == IS_NULL && s[..|s| - |IS_NULL|] == path;
    assert !StartsWith(s, HAS_OPEN) by {
      JoinStart(parts, ".");
      assert IdentChar(parts[0][0]) && s[0] == parts[0][0];
    }
  }

  lemma JoinStart(parts: seq<string>, sep: string)
    requires parts != [] && parts[0] != ""
    ensures Join(parts, sep) != "" && Join(parts, sep)[0] == parts[0][0]
  {
  }
}
