/** The admission guard for EnvoyProxy objects: the generator of its CEL
    expressions, and what the generated text means. */
module Guard {
  import opened Kube
  import opened Text
  import opened Cel

  // ---- The generator ----

  /** Path of the first i parts below a workload variable. */
  function VariablePath(workload: string, parts: seq<string>): seq<string> {
    ["variables", workload] + parts
  }

  /** The terms of the guard of one field, as text. */
  function TermTexts(workload: string, parts: seq<string>): seq<string> {
    [Join(VariablePath(workload, []), ".") + IS_NULL]
    + seq(|parts|, i requires 0 <= i < |parts| =>
        HAS_OPEN + Join(VariablePath(workload, parts[..i + 1]), ".") + HAS_CLOSE)
  }

  function GuardText(workload: string, field: string): string {
    Join(TermTexts(workload, Split(field, ".")), OR)
  }

  /** The terms as syntax trees. */
  function GuardTerms(workload: string, parts: seq<string>): seq<Expr> {
    [EqualsNull(PathExpr(VariablePath(workload, [])))]
    + seq(|parts|, i requires 0 <= i < |parts| =>
        Not(Has(PathExpr(VariablePath(workload, parts[..i])), parts[i])))
  }

  /** One more part: the path grows by it, and the term tests it. */
  lemma NextTerm(workload: string, parts: seq<string>, i: nat)
    requires i < |parts|
    ensures var path := Join(VariablePath(workload, parts[..i]), ".");
            && Join(VariablePath(workload, parts[..i + 1]), ".") == path + "." + parts[i]
            && TermTexts(workload, parts)[i + 1] == HAS_OPEN + path + "." + parts[i] + HAS_CLOSE
  {
    JoinAppend(VariablePath(workload, parts[..i]), ".", parts[i]);
    assert VariablePath(workload, parts[..i]) + [parts[i]] == VariablePath(workload, parts[..i + 1]);
  }

  method FieldAbsentExpression(workload: string, field: string) returns (text: string)
    ensures text == GuardText(workload, field)
  {
    var parts := Split(field, ".");
    var terms := ["variables." + workload + IS_NULL];
    var path := "variables." + workload;
    JoinAppend(["variables"], ".", workload);
    assert ["variables"] + [workload] == VariablePath(workload, []) == VariablePath(workload, parts[..0]);
    var i := 0;
    while i < |parts|
      invariant 0 <= i <= |parts|
      invariant path == Join(VariablePath(workload, parts[..i]), ".")
      invariant terms == TermTexts(workload, parts)[..i + 1]
    {
      NextTerm(workload, parts, i);
      assert TermTexts(workload, parts)[..i + 2] == TermTexts(workload, parts)[..i + 1] + [TermTexts(workload, parts)[i + 1]];
      terms := terms + [HAS_OPEN + path + "." + parts[i] + HAS_CLOSE];
      path := path + "." + parts[i];
      i := i + 1;
    }
    assert TermTexts(workload, parts)[..|parts| + 1] == TermTexts(workload, parts);
    text := Join(terms, OR);
  }

  // ---- The text parses to the tree ----

  predicate PathChar(c: char) {
    IdentChar(c) || c == '.'
  }

  lemma {:induction false} JoinPathChars(parts: seq<string>)
    requires Identifiers(parts)
    ensures forall i :: 0 <= i < |Join(parts, ".")| ==> PathChar(Join(parts, ".")[i])
  {
    if |parts| > 1 {
      JoinPathChars(parts[1..]);
    }
  }

  lemma {:induction false} ParseTermsAll(texts: seq<string>, terms: seq<Expr>)
    requires |texts| == |terms|
    requires forall i :: 0 <= i < |texts| ==> ParseTerm(texts[i]) == Some(terms[i])
    ensures ParseTerms(texts) == Some(terms)
  {
    if texts != [] {
      ParseTermsAll(texts[1..], terms[1..]);
      assert [terms[0]] + terms[1..] == terms;
    }
  }

  lemma FirstTermText(workload: string, parts: seq<string>)
    requires Identifier(workload)
    ensures ParseTerm(TermTexts(workload, parts)[0]) == Some(GuardTerms(workload, parts)[0])
    ensures '|' !in TermTexts(workload, parts)[0]
  {
    assert Identifier("variables");
    var path := VariablePath(workload, []);
    JoinPathChars(path);
    ParseIsNull(path);
  }

  lemma LaterTermText(workload: string, parts: seq<string>, i: nat)
    requires Identifier(workload) && Identifiers(parts) && 0 < i <= |parts|
    ensures ParseTerm(TermTexts(workload, parts)[i]) == Some(GuardTerms(workload, parts)[i])
    ensures '|' !in TermTexts(workload, parts)[i]
  {
    assert Identifier("variables");
    var path := VariablePath(workload, parts[..i]);
    assert Identifiers(path);
    JoinPathChars(path);
    assert path[..|path| - 1] == VariablePath(workload, parts[..i - 1]);
    ParseNotHas(path);
  }

  /** For every workload and dotted path, the generated text parses to the
      disjunction "the workload is null, or some prefix of the path is absent". */
  lemma GuardParses(workload: string, parts: seq<string>)
    requires Identifier(workload) && Identifiers(parts) && parts != []
    ensures Parse(GuardText(workload, Join(parts, "."))) == Some(OrAll(GuardTerms(workload, parts)))
  {
    SplitDotted(parts);
    var texts, terms := TermTexts(workload, parts), GuardTerms(workload, parts);
    forall i | 0 <= i < |texts|
      ensures ParseTerm(texts[i]) == Some(terms[i]) && Apart(texts[i], OR)
    {
      if i == 0 { FirstTermText(workload, parts); } else { LaterTermText(workload, parts, i); }
      OrApart(texts[i]);
    }
    SplitJoin(texts, OR);
    ParseTermsAll(texts, terms);
  }

  // ---- What the tree means ----

  /** The path leads to a present field. */
  predicate PathPresent(v: Value, parts: seq<string>)
    requires parts != []
  {
    && v.Object? && parts[0] in v.fields
    && (|parts| == 1 || PathPresent(v.fields[parts[0]], parts[1..]))
  }

  /** The path ends at an object without the next field. */
  predicate PathAbsent(v: Value, parts: seq<string>)
    requires parts != []
  {
    && v.Object?
    && (parts[0] !in v.fields || (|parts| > 1 && PathAbsent(v.fields[parts[0]], parts[1..])))
  }

  /** Whatever the path passes through is an object. */
  predicate PathTyped(v: Value, parts: seq<string>)
    requires parts != []
  {
    && v.Object?
    && (|parts| > 1 && parts[0] in v.fields ==> PathTyped(v.fields[parts[0]], parts[1..]))
  }

  lemma {:induction false} TypedPathsAreDecided(v: Value, parts: seq<string>)
    requires parts != []
    ensures !(PathPresent(v, parts) && PathAbsent(v, parts))
    ensures PathTyped(v, parts) ==> PathPresent(v, parts) || PathAbsent(v, parts)
  {
    if |parts| > 1 && v.Object? && parts[0] in v.fields {
      TypedPathsAreDecided(v.fields[parts[0]], parts[1..]);
    }
  }

  /** Selecting the parts one after the other. */
  function Follow(v: Value, parts: seq<string>): Result {
    if parts == [] then Val(v)
    else if v.Object? && parts[0] in v.fields then Follow(v.fields[parts[0]], parts[1..])
    else Error
  }

  lemma {:induction false} FollowAppend(v: Value, parts: seq<string>, p: string)
    ensures Follow(v, parts + [p]) == SelectResult(Follow(v, parts), p)
  {
    if parts == [] {
      assert (parts + [p])[1..] == [];
    } else {
      assert (parts + [p])[1..] == parts[1..] + [p];
      if v.Object? && parts[0] in v.fields {
        FollowAppend(v.fields[parts[0]], parts[1..], p);
      }
    }
  }

  /** Evaluating a path expression follows the path from its root variable. */
  lemma {:induction false} PathExprFollows(root: string, parts: seq<string>, env: map<string, Value>)
    requires root in env
    ensures Eval(PathExpr([root] + parts), env) == Follow(env[root], parts)
    decreases |parts|
  {
    if parts != [] {
      var init, last := parts[..|parts| - 1], parts[|parts| - 1];
      assert ([root] + parts)[..|parts|] == [root] + init;
      assert init + [last] == parts;
      PathExprFollows(root, init, env);
      FollowAppend(env[root], init, last);
    }
  }

  /** The presence test of the i-th part, on the object the earlier parts reach. */
  function StepPresence(v: Value, parts: seq<string>, i: nat): Result
    requires i < |parts|
  {
    HasResult(Follow(v, parts[..i]), parts[i])
  }

  lemma StepPresenceTail(v: Value, parts: seq<string>, i: nat)
    requires 0 < i < |parts| && v.Object? && parts[0] in v.fields
    ensures StepPresence(v, parts, i) == StepPresence(v.fields[parts[0]], parts[1..], i - 1)
  {
    assert parts[..i][1..] == parts[1..][..i - 1];
  }

  /** Some step finds its part missing exactly if the path is absent; every step
      finds its part exactly if the path is present. */
  lemma {:induction false} StepsDecide(v: Value, parts: seq<string>)
    requires parts != []
    ensures (exists i :: 0 <= i < |parts| && StepPresence(v, parts, i) == FALSE) <==> PathAbsent(v, parts)
    ensures (forall i :: 0 <= i < |parts| ==> StepPresence(v, parts, i) == TRUE) <==> PathPresent(v, parts)
  {
    assert parts[..0] == [];
    assert StepPresence(v, parts, 0) == HasResult(Val(v), parts[0]);
    if v.Object? && parts[0] in v.fields && |parts| > 1 {
      var child, rest := v.fields[parts[0]], parts[1..];
      StepsDecide(child, rest);
      forall i | 0 < i < |parts|
        ensures StepPresence(v, parts, i) == StepPresence(child, rest, i - 1)
      {
        StepPresenceTail(v, parts, i);
      }
      forall i | 0 <= i < |rest|
        ensures StepPresence(child, rest, i) == StepPresence(v, parts, i + 1)
      {
        StepPresenceTail(v, parts, i + 1);
      }
    } else if !(v.Object? && parts[0] in v.fields) {
      StepsBeyond(v, parts);
    }
  }

  /** After a missing part, or off an object, no step finds anything missing. */
  lemma StepsBeyond(v: Value, parts: seq<string>)
    requires parts != [] && !(v.Object? && parts[0] in v.fields)
    ensures forall i :: 0 < i < |parts| ==> StepPresence(v, parts, i) == Error
  {
  }

  /** The first term tests the workload, the others the steps of the path. */
  lemma TermResults(workload: string, parts: seq<string>, env: map<string, Value>)
    requires "variables" in env && env["variables"].Object? && workload in env["variables"].fields
    ensures var v := env["variables"].fields[workload]; var terms := GuardTerms(workload, parts);
            && Eval(terms[0], env) == Val(Bool(v.Null?))
            && forall i :: 0 <= i < |parts| ==> Eval(terms[i + 1], env) == NotResult(StepPresence(v, parts, i))
  {
    var vs := env["variables"];
    var v := vs.fields[workload];
    var terms := GuardTerms(workload, parts);
    PathExprFollows("variables", [workload], env);
    assert VariablePath(workload, []) == ["variables"] + [workload];
    assert Follow(vs, [workload]) == Follow(v, [workload][1..]);
    forall i | 0 <= i < |parts|
      ensures Eval(terms[i + 1], env) == NotResult(StepPresence(v, parts, i))
    {
      var below := [workload] + parts[..i];
      assert VariablePath(workload, parts[..i]) == ["variables"] + below;
      PathExprFollows("variables", below, env);
      assert below[1..] == parts[..i];
    }
  }

  /** The guard of a field on the value of its workload variable: true if the
      workload is null or the path is absent, false if it is present, and an
      error exactly if the path runs through something that is no object. */
  lemma GuardMeaning(workload: string, parts: seq<string>, env: map<string, Value>)
    requires parts != []
    requires "variables" in env && env["variables"].Object? && workload in env["variables"].fields
    ensures var v := env["variables"].fields[workload];
            var r := Eval(OrAll(GuardTerms(workload, parts)), env);
            && (r == TRUE <==> v.Null? || PathAbsent(v, parts))
            && (r == FALSE <==> PathPresent(v, parts))
            && r in {TRUE, FALSE, Error}
  {
    var v := env["variables"].fields[workload];
    var terms := GuardTerms(workload, parts);
    OrAllResult(terms, env);
    TermResults(workload, parts, env);
    StepsDecide(v, parts);
    var r := Eval(OrAll(terms), env);
    if r == TRUE {
      var i :| 0 <= i < |terms| && Eval(terms[i], env) == TRUE;
      if i > 0 {
        assert Eval(terms[(i - 1) + 1], env) == NotResult(StepPresence(v, parts, i - 1));
        assert StepPresence(v, parts, i - 1) == FALSE;
      }
    }
    if v.Null? {
      assert Eval(terms[0], env) == TRUE;
    } else if PathAbsent(v, parts) {
      var i :| 0 <= i < |parts| && StepPresence(v, parts, i) == FALSE;
      assert Eval(terms[i + 1], env) == TRUE;
    }
    if r == FALSE {
      forall i | 0 <= i < |parts| ensures StepPresence(v, parts, i) == TRUE {
        assert Eval(terms[i + 1], env) == FALSE;
      }
    }
    if PathPresent(v, parts) {
      forall i | 0 <= i < |terms| ensures Eval(terms[i], env) == FALSE {
        assert i > 0 ==> Eval(terms[(i - 1) + 1], env) == NotResult(StepPresence(v, parts, i - 1));
      }
    }
  }
}
