/** The whole admission policy: its variables, its twelve validations, its
    binding, and what it admits. */
module GuardPolicy {
  import opened Kube
  import opened Constants
  import opened Text
  import opened Cel
  import opened Guard

  datatype Workload = EnvoyDeployment | EnvoyDaemonSet

  function VariableName(w: Workload): string {
    match w case EnvoyDeployment => "deploy" case EnvoyDaemonSet => "daemonset"
  }

  function DisplayName(w: Workload): string {
    match w case EnvoyDeployment => "envoyDeployment" case EnvoyDaemonSet => "envoyDaemonSet"
  }

  const WORKLOADS := [EnvoyDeployment, EnvoyDaemonSet]

  const GUARDED_FIELDS := ["patch", "initContainers", "pod.volumes", "container.volumeMounts",
                           "pod.securityContext", "container.securityContext"]

  const GUARDED_PATHS := [["patch"], ["initContainers"], ["pod", "volumes"], ["container", "volumeMounts"],
                          ["pod", "securityContext"], ["container", "securityContext"]]

  lemma TwoParts(a: string, b: string)
    ensures Join([a, b], ".") == a + "." + b
  {
  }

  lemma GuardedNames()
    ensures Identifier("patch") && Identifier("initContainers") && Identifier("pod") && Identifier("container")
    ensures Identifier("volumes") && Identifier("volumeMounts") && Identifier("securityContext")
  {
  }

  /** Paths of identifiers. */
  predicate Paths(paths: seq<seq<string>>) {
    forall i :: 0 <= i < |paths| ==> paths[i] != [] && Identifiers(paths[i])
  }

  /** The fields are the paths, written with dots. */
  predicate Spells(paths: seq<seq<string>>, fields: seq<string>) {
    |paths| == |fields| && forall i :: 0 <= i < |fields| ==> fields[i] == Join(paths[i], ".")
  }

  lemma GuardedPathsAreIdentifiers()
    ensures Paths(GUARDED_PATHS)
  {
    GuardedNames();
  }

  lemma GuardedPathsSpellFields()
    ensures Spells(GUARDED_PATHS, GUARDED_FIELDS)
  {
    TwoParts("pod", "volumes");
    TwoParts("container", "volumeMounts");
    TwoParts("pod", "securityContext");
    TwoParts("container", "securityContext");
    assert "pod" + "." + "volumes" == "pod.volumes";
    assert "container" + "." + "volumeMounts" == "container.volumeMounts";
    assert "pod" + "." + "securityContext" == "pod.securityContext";
    assert "container" + "." + "securityContext" == "container.securityContext";
  }

  /** The guarded fields, split into their parts. */
  lemma GuardedPathsAreFields()
    ensures Paths(GUARDED_PATHS) && Spells(GUARDED_PATHS, GUARDED_FIELDS)
  {
    GuardedPathsAreIdentifiers();
    GuardedPathsSpellFields();
  }

  /** The n-th validation of the given fields: field by field, and within a field
      workload by workload. */
  function Validation(fields: seq<string>, n: nat): string
    requires n < 2 * |fields|
  {
    GuardText(VariableName(WORKLOADS[n % 2]), fields[n / 2])
  }

  /** The validations of the given fields. */
  predicate ValidationsOf(fields: seq<string>, validations: seq<string>) {
    |validations| == 2 * |fields| && forall n :: 0 <= n < |validations| ==> validations[n] == Validation(fields, n)
  }

  method FieldValidations(fields: seq<string>) returns (validations: seq<string>)
    ensures ValidationsOf(fields, validations)
  {
    validations := [];
    var i := 0;
    while i < |fields|
      invariant 0 <= i <= |fields| && |validations| == 2 * i
      invariant forall n :: 0 <= n < 2 * i ==> validations[n] == Validation(fields, n)
    {
      var j := 0;
      while j < |WORKLOADS|
        invariant 0 <= j <= 2 && |validations| == 2 * i + j
        invariant forall n :: 0 <= n < 2 * i + j ==> validations[n] == Validation(fields, n)
      {
        assert (2 * i + j) / 2 == i && (2 * i + j) % 2 == j;
        var text := FieldAbsentExpression(VariableName(WORKLOADS[j]), fields[i]);
        validations := validations + [text];
        j := j + 1;
      }
      i := i + 1;
    }
  }

  // ---- Variables ----

  const PROVIDER_PATH := ["spec", "provider", "kubernetes"]

  /** `has(object.spec) && ... ? object.spec.provider.kubernetes : null` */
  function K8sExpr(): Expr {
    Conditional(
      And(And(Has(Ident("object"), "spec"),
              Has(Select(Ident("object"), "spec"), "provider")),
          Has(Select(Select(Ident("object"), "spec"), "provider"), "kubernetes")),
      Select(Select(Select(Ident("object"), "spec"), "provider"), "kubernetes"),
      NullLiteral)
  }

  /** `variables.k8s != null && has(variables.k8s.X) ? variables.k8s.X : null` */
  function WorkloadExpr(w: Workload): Expr {
    var k8s := Select(Ident("variables"), "k8s");
    Conditional(And(Not(EqualsNull(k8s)), Has(k8s, DisplayName(w))), Select(k8s, DisplayName(w)), NullLiteral)
  }

  function Env(proxy: Value, variables: map<string, Value>): map<string, Value> {
    map["object" := proxy, "variables" := Object(variables)]
  }

  /** A variable whose expression fails is not available to later ones. */
  function Bind(proxy: Value, variables: map<string, Value>, name: string, e: Expr): map<string, Value> {
    var r := Eval(e, Env(proxy, variables));
    if r.Val? then variables[name := r.value] else variables
  }

  function Variables(proxy: Value): map<string, Value> {
    var k8s := Bind(proxy, map[], "k8s", K8sExpr());
    var deploy := Bind(proxy, k8s, VariableName(EnvoyDeployment), WorkloadExpr(EnvoyDeployment));
    Bind(proxy, deploy, VariableName(EnvoyDaemonSet), WorkloadExpr(EnvoyDaemonSet))
  }

  /** The provider section: null if absent, its value if present, else an error. */
  lemma K8sValue(proxy: Value, variables: map<string, Value>)
    ensures var r := Eval(K8sExpr(), Env(proxy, variables));
            r == if PathPresent(proxy, PROVIDER_PATH) then Follow(proxy, PROVIDER_PATH)
                 else if PathAbsent(proxy, PROVIDER_PATH) then Val(Null) else Error
  {
    var env := Env(proxy, variables);
    var spec := Select(Ident("object"), "spec");
    var provider := Select(spec, "provider");
    assert Eval(Ident("object"), env) == Val(proxy);
    assert Eval(spec, env) == SelectResult(Val(proxy), "spec");
    assert Eval(provider, env) == SelectResult(Eval(spec, env), "provider");
    var test := And(And(Has(Ident("object"), "spec"), Has(spec, "provider")), Has(provider, "kubernetes"));
    assert Eval(test.left, env) == AndResult(HasResult(Val(proxy), "spec"), HasResult(Eval(spec, env), "provider"));
    assert Eval(test, env) == AndResult(Eval(test.left, env), HasResult(Eval(provider, env), "kubernetes"));
    assert Eval(Select(provider, "kubernetes"), env) == SelectResult(Eval(provider, env), "kubernetes");
    assert K8sExpr() == Conditional(test, Select(provider, "kubernetes"), NullLiteral);
    var p := PROVIDER_PATH;
    assert p[1..] == ["provider", "kubernetes"] && p[1..][1..] == ["kubernetes"] && p[1..][1..][1..] == [];
    ThreeSteps(proxy, "spec", "provider", "kubernetes");
  }

  /** A path of three parts, written out. */
  lemma ThreeSteps(v: Value, a: string, b: string, c: string)
    ensures var first := SelectResult(Val(v), a); var second := SelectResult(first, b);
            && Follow(v, [a, b, c]) == SelectResult(second, c)
            && (PathPresent(v, [a, b, c]) <==> SelectResult(second, c).Val?)
            && (PathAbsent(v, [a, b, c]) <==>
                  || HasResult(Val(v), a) == FALSE || HasResult(first, b) == FALSE || HasResult(second, c) == FALSE)
  {
    assert [a, b, c][1..] == [b, c] && [b, c][1..] == [c] && [c][1..] == [];
    if v.Object? && a in v.fields {
      var x := v.fields[a];
      assert Follow(v, [a, b, c]) == Follow(x, [b, c]);
      assert PathPresent(v, [a, b, c]) == PathPresent(x, [b, c]) && PathAbsent(v, [a, b, c]) == PathAbsent(x, [b, c]);
      if x.Object? && b in x.fields {
        var y := x.fields[b];
        assert Follow(x, [b, c]) == Follow(y, [c]);
        assert PathPresent(x, [b, c]) == PathPresent(y, [c]) && PathAbsent(x, [b, c]) == PathAbsent(y, [c]);
        FollowAppend(y, [], c);
        assert [] + [c] == [c];
      }
    }
  }

  /** The value of a workload section, given the provider section. */
  function WorkloadResult(k8s: Value, w: Workload): Result {
    if k8s.Null? then Val(Null)
    else if !k8s.Object? then Error
    else if DisplayName(w) in k8s.fields then Val(k8s.fields[DisplayName(w)])
    else Val(Null)
  }

  lemma WorkloadValue(proxy: Value, variables: map<string, Value>, w: Workload)
    ensures Eval(WorkloadExpr(w), Env(proxy, variables)) ==
            if "k8s" in variables then WorkloadResult(variables["k8s"], w) else Error
  {
    var env := Env(proxy, variables);
    var k8s := Select(Ident("variables"), "k8s");
    assert Eval(Ident("variables"), env) == Val(Object(variables));
    assert Eval(k8s, env) == SelectResult(Val(Object(variables)), "k8s");
    var test := And(Not(EqualsNull(k8s)), Has(k8s, DisplayName(w)));
    assert Eval(test.right, env) == HasResult(Eval(k8s, env), DisplayName(w));
    assert Eval(EqualsNull(k8s), env) == if "k8s" in variables then Val(Bool(variables["k8s"].Null?)) else Error;
    assert Eval(test, env) == AndResult(NotResult(Eval(EqualsNull(k8s), env)), Eval(test.right, env));
  }

  /** The workload variables hold the sections of the object. */
  lemma VariablesValue(proxy: Value, w: Workload)
    ensures var k := Eval(K8sExpr(), Env(proxy, map[])); var vs := Variables(proxy);
            if k.Val? && WorkloadResult(k.value, w).Val?
            then VariableName(w) in vs && vs[VariableName(w)] == WorkloadResult(k.value, w).value
            else VariableName(w) !in vs
  {
    var k := Eval(K8sExpr(), Env(proxy, map[]));
    var k8s := Bind(proxy, map[], "k8s", K8sExpr());
    var deploy := Bind(proxy, k8s, VariableName(EnvoyDeployment), WorkloadExpr(EnvoyDeployment));
    WorkloadValue(proxy, k8s, EnvoyDeployment);
    WorkloadValue(proxy, deploy, EnvoyDaemonSet);
    assert "k8s" != "deploy" && "k8s" != "daemonset" && "deploy" != "daemonset";
  }

  // ---- Admission ----

  /** The binding covers every namespace but kube-system. */
  function BindingSelector(): Selector {
    Selector(map[], [NotIn(METADATA_NAME_LABEL, {NAMESPACE})])
  }

  predicate Holds(validation: string, proxy: Value) {
    var e := Parse(validation);
    e.Some? && Eval(e.value, Env(proxy, Variables(proxy))) == TRUE
  }

  /** Denied unless every validation is true: an error is a failure. */
  predicate Admitted(proxy: Value, namespaceLabels: Labels, validations: seq<string>) {
    Selects(BindingSelector(), namespaceLabels) ==>
      forall i :: 0 <= i < |validations| ==> Holds(validations[i], proxy)
  }

  /** Full path of a guarded field of a workload. */
  function FieldPath(w: Workload, parts: seq<string>): seq<string> {
    PROVIDER_PATH + [DisplayName(w)] + parts
  }

  lemma {:induction false} PathsCompose(v: Value, a: seq<string>, b: seq<string>)
    requires a != [] && b != []
    ensures PathPresent(v, a + b) <==> Follow(v, a).Val? && PathPresent(Follow(v, a).value, b)
    ensures PathTyped(v, a + b) ==> PathTyped(v, a) && (Follow(v, a).Val? ==> PathTyped(Follow(v, a).value, b))
    ensures PathPresent(v, a) <==> Follow(v, a).Val?
  {
    assert (a + b)[0] == a[0] && (a + b)[1..] == a[1..] + b;
    if v.Object? && a[0] in v.fields {
      var child := v.fields[a[0]];
      if |a| == 1 {
        assert a[1..] + b == b;
        assert Follow(v, a) == Follow(child, []);
      } else {
        PathsCompose(child, a[1..], b);
      }
    }
  }

  /** One validation, read on the whole object: where it holds, the guarded field
      is not present; on an object whose path is well-typed it holds exactly if
      the field is not present. */
  lemma ValidationMeaning(proxy: Value, w: Workload, parts: seq<string>)
    requires parts != [] && Identifiers(parts)
    ensures var text := GuardText(VariableName(w), Join(parts, "."));
            && (Holds(text, proxy) ==> !PathPresent(proxy, FieldPath(w, parts)))
            && (PathTyped(proxy, FieldPath(w, parts)) && !PathPresent(proxy, FieldPath(w, parts)) ==> Holds(text, proxy))
  {
    var vs := Variables(proxy);
    var name := VariableName(w);
    assert Identifier(name);
    GuardParses(name, parts);
    K8sValue(proxy, map[]);
    VariablesValue(proxy, w);
    if name in vs {
      GuardMeaning(name, parts, Env(proxy, vs));
    } else {
      UnboundGuard(name, parts, Env(proxy, vs));
    }
    var below := [DisplayName(w)] + parts;
    assert FieldPath(w, parts) == PROVIDER_PATH + below;
    PathsCompose(proxy, PROVIDER_PATH, below);
    TypedPathsAreDecided(proxy, PROVIDER_PATH);
    if PathPresent(proxy, PROVIDER_PATH) {
      var k8s := Follow(proxy, PROVIDER_PATH).value;
      assert below[0] == DisplayName(w) && below[1..] == parts;
      if k8s.Object? && DisplayName(w) in k8s.fields {
        TypedPathsAreDecided(k8s.fields[DisplayName(w)], parts);
      }
    }
  }

  lemma UnboundPath(name: string, parts: seq<string>, env: map<string, Value>)
    requires "variables" in env && env["variables"].Object? && name !in env["variables"].fields
    ensures Eval(PathExpr(VariablePath(name, parts)), env) == Error
  {
    var below := [name] + parts;
    assert VariablePath(name, parts) == ["variables"] + below;
    PathExprFollows("variables", below, env);
    assert Follow(env["variables"], below) == Error;
  }

  /** A guard on a variable that is not available is an error. */
  lemma UnboundGuard(name: string, parts: seq<string>, env: map<string, Value>)
    requires parts != [] && "variables" in env && env["variables"].Object? && name !in env["variables"].fields
    ensures Eval(OrAll(GuardTerms(name, parts)), env) != TRUE
  {
    var terms := GuardTerms(name, parts);
    OrAllResult(terms, env);
    forall i | 0 <= i < |terms|
      ensures Eval(terms[i], env) != TRUE
    {
      UnboundPath(name, if i == 0 then [] else parts[..i - 1], env);
    }
  }

  /** None of the fields is present, on either workload. */
  predicate Clean(paths: seq<seq<string>>, proxy: Value)
    requires Paths(paths)
  {
    forall i, w: Workload :: 0 <= i < |paths| ==> !PathPresent(proxy, FieldPath(w, paths[i]))
  }

  /** The sections on the way to the fields are objects where present. */
  predicate WellTyped(paths: seq<seq<string>>, proxy: Value)
    requires Paths(paths)
  {
    forall i, w: Workload :: 0 <= i < |paths| ==> PathTyped(proxy, FieldPath(w, paths[i]))
  }

  lemma OneValidation(paths: seq<seq<string>>, fields: seq<string>, validations: seq<string>, proxy: Value, i: nat, w: Workload)
    requires Paths(paths) && Spells(paths, fields) && ValidationsOf(fields, validations) && i < |paths|
    ensures Position(i, w) < |validations|
    ensures Holds(validations[Position(i, w)], proxy) ==> !PathPresent(proxy, FieldPath(w, paths[i]))
    ensures PathTyped(proxy, FieldPath(w, paths[i])) && !PathPresent(proxy, FieldPath(w, paths[i])) ==>
              Holds(validations[Position(i, w)], proxy)
  {
    var n := Position(i, w);
    assert n / 2 == i && WORKLOADS[n % 2] == w;
    assert validations[n] == Validation(fields, n);
    ValidationMeaning(proxy, w, paths[i]);
  }

  lemma HoldingIsClean(paths: seq<seq<string>>, fields: seq<string>, validations: seq<string>, proxy: Value)
    requires Paths(paths) && Spells(paths, fields) && ValidationsOf(fields, validations)
    requires forall n :: 0 <= n < |validations| ==> Holds(validations[n], proxy)
    ensures Clean(paths, proxy)
  {
    forall i, w: Workload | 0 <= i < |paths|
      ensures !PathPresent(proxy, FieldPath(w, paths[i]))
    {
      OneValidation(paths, fields, validations, proxy, i, w);
    }
  }

  lemma CleanHolds(paths: seq<seq<string>>, fields: seq<string>, validations: seq<string>, proxy: Value)
    requires Paths(paths) && Spells(paths, fields) && ValidationsOf(fields, validations)
    requires WellTyped(paths, proxy) && Clean(paths, proxy)
    ensures forall n :: 0 <= n < |validations| ==> Holds(validations[n], proxy)
  {
    forall n | 0 <= n < |validations|
      ensures Holds(validations[n], proxy)
    {
      OneValidation(paths, fields, validations, proxy, n / 2, WORKLOADS[n % 2]);
      assert Position(n / 2, WORKLOADS[n % 2]) == n;
    }
  }

  lemma BindingMeaning(namespaceLabels: Labels)
    ensures Selects(BindingSelector(), namespaceLabels) <==> Lookup(namespaceLabels, METADATA_NAME_LABEL) != NAMESPACE
  {
    assert Meets(BindingSelector().matchExpressions[0], namespaceLabels)
           <==> Lookup(namespaceLabels, METADATA_NAME_LABEL) != NAMESPACE;
  }

  /** What a guard generated for any list of fields admits: outside kube-system no
      object on which one of the fields is present on either workload, for
      object trees of any shape and size; and of the well-typed objects, all
      others. */
  lemma GuardIsExact(paths: seq<seq<string>>, fields: seq<string>, validations: seq<string>,
                     proxy: Value, namespaceLabels: Labels)
    requires Paths(paths) && Spells(paths, fields) && ValidationsOf(fields, validations)
    ensures Admitted(proxy, namespaceLabels, validations) ==>
              Lookup(namespaceLabels, METADATA_NAME_LABEL) == NAMESPACE || Clean(paths, proxy)
    ensures WellTyped(paths, proxy) ==>
              (Admitted(proxy, namespaceLabels, validations) <==>
               Lookup(namespaceLabels, METADATA_NAME_LABEL) == NAMESPACE || Clean(paths, proxy))
  {
    BindingMeaning(namespaceLabels);
    if forall n :: 0 <= n < |validations| ==> Holds(validations[n], proxy) {
      HoldingIsClean(paths, fields, validations, proxy);
    } else if WellTyped(paths, proxy) && Clean(paths, proxy) {
      CleanHolds(paths, fields, validations, proxy);
    }
  }

  // ---- The shipped guard, with paths and names written out ----

  predicate FieldPresent(proxy: Value, section: string, field: seq<string>) {
    PathPresent(proxy, ["spec", "provider", "kubernetes", section] + field)
  }

  predicate FieldTyped(proxy: Value, section: string, field: seq<string>) {
    PathTyped(proxy, ["spec", "provider", "kubernetes", section] + field)
  }

  /** One of the fields that lead out of the proxy's sandbox is set in the section. */
  predicate SectionTouches(proxy: Value, section: string) {
    || FieldPresent(proxy, section, ["patch"])
    || FieldPresent(proxy, section, ["initContainers"])
    || FieldPresent(proxy, section, ["pod", "volumes"])
    || FieldPresent(proxy, section, ["container", "volumeMounts"])
    || FieldPresent(proxy, section, ["pod", "securityContext"])
    || FieldPresent(proxy, section, ["container", "securityContext"])
  }

  predicate SectionTyped(proxy: Value, section: string) {
    && FieldTyped(proxy, section, ["patch"])
    && FieldTyped(proxy, section, ["initContainers"])
    && FieldTyped(proxy, section, ["pod", "volumes"])
    && FieldTyped(proxy, section, ["container", "volumeMounts"])
    && FieldTyped(proxy, section, ["pod", "securityContext"])
    && FieldTyped(proxy, section, ["container", "securityContext"])
  }

  /** On either workload. */
  predicate TouchesSandbox(proxy: Value) {
    SectionTouches(proxy, "envoyDeployment") || SectionTouches(proxy, "envoyDaemonSet")
  }

  predicate SandboxTyped(proxy: Value) {
    SectionTyped(proxy, "envoyDeployment") && SectionTyped(proxy, "envoyDaemonSet")
  }

  predicate InKubeSystem(namespaceLabels: Labels) {
    "kubernetes.io/metadata.name" in namespaceLabels && namespaceLabels["kubernetes.io/metadata.name"] == "kube-system"
  }

  lemma SectionOf(w: Workload, parts: seq<string>)
    ensures FieldPath(w, parts) ==
            ["spec", "provider", "kubernetes", match w case EnvoyDeployment => "envoyDeployment" case EnvoyDaemonSet => "envoyDaemonSet"] + parts
  {
  }

  lemma GuardedAre(proxy: Value, w: Workload, section: string)
    requires section == match w case EnvoyDeployment => "envoyDeployment" case EnvoyDaemonSet => "envoyDaemonSet"
    ensures |GUARDED_PATHS| == 6
    ensures SectionTouches(proxy, section) <==> exists i :: 0 <= i < 6 && PathPresent(proxy, FieldPath(w, GUARDED_PATHS[i]))
    ensures SectionTyped(proxy, section) <==> forall i :: 0 <= i < 6 ==> PathTyped(proxy, FieldPath(w, GUARDED_PATHS[i]))
  {
    var g := GUARDED_PATHS;
    assert g[0] == ["patch"] && g[1] == ["initContainers"] && g[2] == ["pod", "volumes"];
    assert g[3] == ["container", "volumeMounts"] && g[4] == ["pod", "securityContext"] && g[5] == ["container", "securityContext"];
    forall i | 0 <= i < 6
      ensures FieldPath(w, g[i]) == ["spec", "provider", "kubernetes", section] + g[i]
    {
      SectionOf(w, g[i]);
    }
  }

  lemma CleanIsUntouched(proxy: Value)
    requires Paths(GUARDED_PATHS)
    ensures Clean(GUARDED_PATHS, proxy) <==> !TouchesSandbox(proxy)
    ensures WellTyped(GUARDED_PATHS, proxy) <==> SandboxTyped(proxy)
  {
    GuardedAre(proxy, EnvoyDeployment, "envoyDeployment");
    GuardedAre(proxy, EnvoyDaemonSet, "envoyDaemonSet");
  }

  /** Outside kube-system no object that sets one of the six fields on either workload is
      admitted; and of the well-typed objects, all others are. */
  predicate GuardsSandbox(proxy: Value, namespaceLabels: Labels, validations: seq<string>) {
    && (Admitted(proxy, namespaceLabels, validations) ==> InKubeSystem(namespaceLabels) || !TouchesSandbox(proxy))
    && (SandboxTyped(proxy) ==>
          (Admitted(proxy, namespaceLabels, validations) <==> InKubeSystem(namespaceLabels) || !TouchesSandbox(proxy)))
  }

  lemma SixFieldsAreGuarded(proxy: Value, namespaceLabels: Labels, validations: seq<string>)
    requires ValidationsOf(GUARDED_FIELDS, validations)
    ensures GuardsSandbox(proxy, namespaceLabels, validations)
  {
    GuardedPathsAreFields();
    CleanIsUntouched(proxy);
    GuardIsExact(GUARDED_PATHS, GUARDED_FIELDS, validations, proxy, namespaceLabels);
    assert InKubeSystem(namespaceLabels) <==> Lookup(namespaceLabels, METADATA_NAME_LABEL) == NAMESPACE;
  }

  /** Generates the shipped validations. */
  method EnvoyProxyGuard() returns (validations: seq<string>)
    ensures |validations| == 12
    ensures forall proxy: Value, namespaceLabels: Labels :: GuardsSandbox(proxy, namespaceLabels, validations)
  {
    validations := FieldValidations(GUARDED_FIELDS);
    forall proxy: Value, namespaceLabels: Labels
      ensures GuardsSandbox(proxy, namespaceLabels, validations)
    {
      SixFieldsAreGuarded(proxy, namespaceLabels, validations);
    }
  }

  /** The variables hold the sections of those names. */
  lemma VariablesAreSections(proxy: Value)
    ensures var vs := Variables(proxy);
            && (PathPresent(proxy, ["spec", "provider", "kubernetes", "envoyDeployment"]) ==>
                  "deploy" in vs && Follow(proxy, ["spec", "provider", "kubernetes", "envoyDeployment"]) == Val(vs["deploy"]))
            && (PathPresent(proxy, ["spec", "provider", "kubernetes", "envoyDaemonSet"]) ==>
                  "daemonset" in vs && Follow(proxy, ["spec", "provider", "kubernetes", "envoyDaemonSet"]) == Val(vs["daemonset"]))
  {
    assert PROVIDER_PATH + ["envoyDeployment"] == ["spec", "provider", "kubernetes", "envoyDeployment"];
    assert PROVIDER_PATH + ["envoyDaemonSet"] == ["spec", "provider", "kubernetes", "envoyDaemonSet"];
    if PathPresent(proxy, PROVIDER_PATH + ["envoyDeployment"]) { VariableIsSection(proxy, EnvoyDeployment, "envoyDeployment"); }
    if PathPresent(proxy, PROVIDER_PATH + ["envoyDaemonSet"]) { VariableIsSection(proxy, EnvoyDaemonSet, "envoyDaemonSet"); }
  }

  lemma VariableIsSection(proxy: Value, w: Workload, section: string)
    requires section == DisplayName(w) && PathPresent(proxy, PROVIDER_PATH + [section])
    ensures VariableName(w) in Variables(proxy)
    ensures Follow(proxy, PROVIDER_PATH + [section]) == Val(Variables(proxy)[VariableName(w)])
  {
    PathsCompose(proxy, PROVIDER_PATH, [section]);
    K8sValue(proxy, map[]);
    VariablesValue(proxy, w);
    FollowAppend(proxy, PROVIDER_PATH, section);
  }

  function Position(i: nat, w: Workload): nat {
    2 * i + match w case EnvoyDeployment => 0 case EnvoyDaemonSet => 1
  }
}
