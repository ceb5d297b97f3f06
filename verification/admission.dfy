/** The shoot validator webhook, and its agreement with the actuator. */
module Admission {
  import opened Kube
  import opened ProviderConfigs

  const EXTENSION_TYPE := "envoy-gateway"
  const TRAEFIK_TYPE := "shoot-traefik"
  const PURPOSE_EVALUATION := "evaluation"

  datatype Extension = Extension(kind: string, disabled: Option<bool>, providerConfig: Option<string>)

  datatype Warning = TraefikCoexistence | ExperimentalChannel

  datatype Verdict = Allowed(warnings: seq<Warning>) | Denied

  predicate Disabled(e: Extension) {
    e.disabled == Some(true)
  }

  predicate EnvoyGateway(e: Extension) {
    e.kind == EXTENSION_TYPE && !Disabled(e)
  }

  predicate SomeDisabled(exts: seq<Extension>) {
    exists i :: 0 <= i < |exts| && exts[i].kind == EXTENSION_TYPE && Disabled(exts[i])
  }

  predicate HasEnvoyGateway(exts: seq<Extension>) {
    exists i :: 0 <= i < |exts| && EnvoyGateway(exts[i])
  }

  predicate HasTraefik(exts: seq<Extension>) {
    exists i :: 0 <= i < |exts| && exts[i].kind == TRAEFIK_TYPE && !Disabled(exts[i])
  }

  /** The raw configuration of the last enabled entry that carries one. */
  function LastConfig(exts: seq<Extension>): Option<string> {
    if exts == [] then None
    else
      var last := exts[|exts| - 1];
      if EnvoyGateway(last) && last.providerConfig.Some? then last.providerConfig
      else LastConfig(exts[..|exts| - 1])
  }

  /** What a configuration contributes: its warnings, or nothing if it is bad. */
  function Opinion(decode: Decoder, raw: Option<string>): Option<seq<Warning>> {
    if raw.None? || raw.value == "" then Some([])
    else if decode(raw.value).None? || !Acceptable(decode(raw.value).value) then None
    else Some(if decode(raw.value).value.channel == CHANNEL_EXPERIMENTAL then [ExperimentalChannel] else [])
  }

  /** The verdict on the entries of a shoot. */
  function Judge(decode: Decoder, exts: seq<Extension>, purpose: Option<string>): Verdict {
    if SomeDisabled(exts) || !HasEnvoyGateway(exts) then Allowed([])
    else if purpose != Some(PURPOSE_EVALUATION) then Denied
    else
      var warnings := if HasTraefik(exts) then [TraefikCoexistence] else [];
      var opinion := Opinion(decode, LastConfig(exts));
      if opinion.None? then Denied else Allowed(warnings + opinion.value)
  }

  method ValidateShoot(decode: Decoder, exts: seq<Extension>, purpose: Option<string>) returns (verdict: Verdict)
    ensures verdict == Judge(decode, exts, purpose)
  {
    var hasEnvoyGateway, hasTraefik, raw := false, false, None;
    var i := 0;
    while i < |exts|
      invariant 0 <= i <= |exts|
      invariant !SomeDisabled(exts[..i])
      invariant hasEnvoyGateway == HasEnvoyGateway(exts[..i])
      invariant hasTraefik == HasTraefik(exts[..i])
      invariant raw == LastConfig(exts[..i])
    {
      var ext := exts[i];
      assert exts[..i + 1] == exts[..i] + [ext];
      PrefixFacts(exts[..i], ext);
      if ext.kind == TRAEFIK_TYPE && !Disabled(ext) {
        hasTraefik := true;
      } else if ext.kind == EXTENSION_TYPE {
        if Disabled(ext) {
          assert SomeDisabled(exts);
          return Allowed([]);
        }
        hasEnvoyGateway := true;
        if ext.providerConfig.Some? {
          raw := ext.providerConfig;
        }
      }
      i := i + 1;
    }
    assert exts[..|exts|] == exts;
    if !hasEnvoyGateway { return Allowed([]); }
    if purpose != Some(PURPOSE_EVALUATION) { return Denied; }
    var warnings: seq<Warning> := [];
    if hasTraefik { warnings := warnings + [TraefikCoexistence]; }
    if raw.Some? && raw.value != "" {
      var decoded := decode(raw.value);
      if decoded.None? { return Denied; }
      if !LogLevelOk(decoded.value.controlPlane) { return Denied; }
      if !LogLevelOk(decoded.value.dataPlane) { return Denied; }
      if decoded.value.channel != "" && decoded.value.channel !in VALID_CHANNELS { return Denied; }
      if decoded.value.channel == CHANNEL_EXPERIMENTAL { warnings := warnings + [ExperimentalChannel]; }
    }
    return Allowed(warnings);
  }

  lemma PrefixFacts(exts: seq<Extension>, e: Extension)
    ensures SomeDisabled(exts + [e]) <==> SomeDisabled(exts) || (e.kind == EXTENSION_TYPE && Disabled(e))
    ensures HasEnvoyGateway(exts + [e]) <==> HasEnvoyGateway(exts) || EnvoyGateway(e)
    ensures HasTraefik(exts + [e]) <==> HasTraefik(exts) || (e.kind == TRAEFIK_TYPE && !Disabled(e))
    ensures LastConfig(exts + [e]) == if EnvoyGateway(e) && e.providerConfig.Some? then e.providerConfig else LastConfig(exts)
  {
    var all := exts + [e];
    assert all[|exts|] == e && all[..|exts|] == exts;
    assert forall i :: 0 <= i < |exts| ==> all[i] == exts[i];
  }

  // ---- What the verdict means ----

  /** Denied are exactly: enabled entries, none of them disabled, on a shoot whose purpose
      is not evaluation; and on one whose purpose is, a non-empty configuration that does
      not decode or is not acceptable. */
  lemma DeniedIff(decode: Decoder, exts: seq<Extension>, purpose: Option<string>)
    ensures Judge(decode, exts, purpose).Denied? <==>
            && (exists i :: 0 <= i < |exts| && exts[i].kind == "envoy-gateway" && exts[i].disabled != Some(true))
            && (forall i :: 0 <= i < |exts| && exts[i].kind == "envoy-gateway" ==> exts[i].disabled != Some(true))
            && (|| purpose != Some("evaluation")
                || (&& LastConfig(exts).Some? && LastConfig(exts).value != ""
                    && (decode(LastConfig(exts).value).None? || !Acceptable(decode(LastConfig(exts).value).value))))
  {
  }

  /** The configuration that counts is that of the last enabled entry with one. */
  lemma {:induction false} LastConfigMeaning(exts: seq<Extension>)
    ensures LastConfig(exts).None? <==> forall i :: 0 <= i < |exts| ==> !CarriesConfig(exts[i])
    ensures LastConfig(exts).Some? ==>
              exists i :: 0 <= i < |exts| && CarriesConfig(exts[i]) && exts[i].providerConfig == LastConfig(exts) &&
                forall j :: i < j < |exts| ==> !CarriesConfig(exts[j])
  {
    if exts != [] {
      var init, last := exts[..|exts| - 1], exts[|exts| - 1];
      LastConfigMeaning(init);
      if CarriesConfig(last) {
        assert CarriesConfig(exts[|exts| - 1]);
      } else if LastConfig(init).Some? {
        var i :| 0 <= i < |init| && CarriesConfig(init[i]) && init[i].providerConfig == LastConfig(init) &&
                 forall j :: i < j < |init| ==> !CarriesConfig(init[j]);
        assert exts[i] == init[i];
        assert forall j :: i < j < |exts| ==> exts[j] == if j < |init| then init[j] else last;
      } else {
        assert forall j :: 0 <= j < |exts| ==> exts[j] == if j < |init| then init[j] else last;
      }
    }
  }

  predicate CarriesConfig(e: Extension) {
    e.kind == "envoy-gateway" && e.disabled != Some(true) && e.providerConfig.Some?
  }

  /** An enabled shoot-traefik entry is there. */
  predicate Coexists(exts: seq<Extension>) {
    exists i :: 0 <= i < |exts| && exts[i].kind == "shoot-traefik" && exts[i].disabled != Some(true)
  }

  /** The configuration selects the experimental channel. */
  predicate Experimental(decode: Decoder, raw: Option<string>) {
    raw.Some? && raw.value != "" && decode(raw.value).Some? && decode(raw.value).value.channel == "experimental"
  }

  /** The warnings of an admitted, enabled shoot, in order; otherwise there are none. */
  lemma WarningsAreExact(decode: Decoder, exts: seq<Extension>, purpose: Option<string>)
    requires Judge(decode, exts, purpose).Allowed?
    ensures Judge(decode, exts, purpose).warnings ==
            if !HasEnvoyGateway(exts) || SomeDisabled(exts) then []
            else (if Coexists(exts) then [TraefikCoexistence] else [])
                 + (if Experimental(decode, LastConfig(exts)) then [ExperimentalChannel] else [])
  {
    assert HasTraefik(exts) <==> Coexists(exts);
  }

  // ---- Order independence ----

  predicate Carries(e: Extension) {
    EnvoyGateway(e) && e.providerConfig.Some?
  }

  /** All configurations carried by enabled entries contribute the same. */
  predicate OneOpinion(decode: Decoder, exts: seq<Extension>) {
    forall a, b :: a in exts && b in exts && Carries(a) && Carries(b) ==>
      Opinion(decode, a.providerConfig) == Opinion(decode, b.providerConfig)
  }

  lemma {:induction false} LastConfigIsSome(exts: seq<Extension>)
    ensures LastConfig(exts).None? <==> forall e :: e in exts && EnvoyGateway(e) ==> e.providerConfig.None?
    ensures LastConfig(exts).Some? ==> exists e :: e in exts && EnvoyGateway(e) && e.providerConfig == LastConfig(exts)
  {
    if exts != [] {
      var init, last := exts[..|exts| - 1], exts[|exts| - 1];
      LastConfigIsSome(init);
      assert exts == init + [last];
      assert last in exts;
      assert forall e :: e in init ==> e in exts;
      assert forall e :: e in exts ==> e in init || e == last;
    }
  }

  /** The order has no say: an entry is disabled, or none is enabled, or the purpose
      alone decides, or all carried configurations contribute the same. */
  predicate Orderless(decode: Decoder, exts: seq<Extension>, purpose: Option<string>) {
    SomeDisabled(exts) || !HasEnvoyGateway(exts) || purpose != Some(PURPOSE_EVALUATION) || OneOpinion(decode, exts)
  }

  lemma OrderlessVerdict(decode: Decoder, exts: seq<Extension>, other: seq<Extension>, purpose: Option<string>)
    requires multiset(other) == multiset(exts) && Orderless(decode, exts, purpose)
    ensures Judge(decode, other, purpose) == Judge(decode, exts, purpose)
  {
    SameFacts(exts, other);
    if OneOpinion(decode, exts) { SameOpinion(decode, exts, other); }
  }

  lemma SameOpinion(decode: Decoder, exts: seq<Extension>, other: seq<Extension>)
    requires OneOpinion(decode, exts) && forall e :: e in exts <==> e in other
    ensures Opinion(decode, LastConfig(other)) == Opinion(decode, LastConfig(exts))
  {
    LastConfigIsSome(exts);
    LastConfigIsSome(other);
  }

  /** Where the configuration decides, different opinions are different verdicts. */
  lemma OpinionDecides(decode: Decoder, exts: seq<Extension>, other: seq<Extension>)
    requires !SomeDisabled(exts) && HasEnvoyGateway(exts) && !SomeDisabled(other) && HasEnvoyGateway(other)
    requires HasTraefik(exts) == HasTraefik(other)
    requires Opinion(decode, LastConfig(exts)) != Opinion(decode, LastConfig(other))
    ensures Judge(decode, exts, Some(PURPOSE_EVALUATION)) != Judge(decode, other, Some(PURPOSE_EVALUATION))
  {
    var warnings := if HasTraefik(exts) then [TraefikCoexistence] else [];
    var a, b := Opinion(decode, LastConfig(exts)), Opinion(decode, LastConfig(other));
    if a.Some? && b.Some? {
      assert (warnings + a.value)[|warnings|..] == a.value && (warnings + b.value)[|warnings|..] == b.value;
    }
  }

  /** The verdict is the same for every order of the entries if and only if the order
      has no say. */
  lemma OrderDoesNotMatterIff(decode: Decoder, exts: seq<Extension>, purpose: Option<string>)
    ensures (forall other :: multiset(other) == multiset(exts) ==> Judge(decode, other, purpose) == Judge(decode, exts, purpose))
            <==> Orderless(decode, exts, purpose)
  {
    if Orderless(decode, exts, purpose) {
      forall other | multiset(other) == multiset(exts)
        ensures Judge(decode, other, purpose) == Judge(decode, exts, purpose)
      {
        OrderlessVerdict(decode, exts, other, purpose);
      }
    } else {
      var a, b :| a in exts && b in exts && Carries(a) && Carries(b) &&
                  Opinion(decode, a.providerConfig) != Opinion(decode, b.providerConfig);
      var aLast := LastOfAll(exts, a);
      var bLast := LastOfAll(exts, b);
      SameFacts(exts, aLast);
      SameFacts(exts, bLast);
      OpinionDecides(decode, aLast, bLast);
    }
  }

  /** An order in which the given configuration is the last one. */
  lemma LastOfAll(exts: seq<Extension>, e: Extension) returns (other: seq<Extension>)
    requires e in exts && Carries(e)
    ensures multiset(other) == multiset(exts) && LastConfig(other) == e.providerConfig
  {
    var i :| 0 <= i < |exts| && exts[i] == e;
    var init := exts[..i] + exts[i + 1..];
    assert exts == exts[..i] + [e] + exts[i + 1..];
    other := init + [e];
    assert other[|other| - 1] == e;
  }

  lemma SameFacts(exts: seq<Extension>, other: seq<Extension>)
    requires multiset(exts) == multiset(other)
    ensures forall e :: e in exts <==> e in other
    ensures SomeDisabled(exts) == SomeDisabled(other)
    ensures HasEnvoyGateway(exts) == HasEnvoyGateway(other)
    ensures HasTraefik(exts) == HasTraefik(other)
  {
    assert forall e :: e in exts <==> e in multiset(exts);
    assert forall e :: e in other <==> e in multiset(other);
    SameMembersSameFacts(exts, other);
    SameMembersSameFacts(other, exts);
  }

  /** So order does not matter where every type occurs at most once. */
  lemma DistinctTypesHaveNoOrder(decode: Decoder, exts: seq<Extension>, other: seq<Extension>, purpose: Option<string>)
    requires forall i, j :: 0 <= i < j < |exts| ==> exts[i].kind != exts[j].kind
    requires multiset(other) == multiset(exts)
    ensures Judge(decode, other, purpose) == Judge(decode, exts, purpose)
  {
    assert forall a, b :: a in exts && b in exts && a.kind == b.kind ==> a == b;
    OrderDoesNotMatterIff(decode, exts, purpose);
  }

  lemma SameMembersSameFacts(exts: seq<Extension>, other: seq<Extension>)
    requires forall e :: e in exts ==> e in other
    ensures SomeDisabled(exts) ==> SomeDisabled(other)
    ensures HasEnvoyGateway(exts) ==> HasEnvoyGateway(other)
    ensures HasTraefik(exts) ==> HasTraefik(other)
  {
    assert forall i :: 0 <= i < |exts| ==> exts[i] in other;
  }

  // ---- Agreement with the actuator ----

  /** A non-empty or absent configuration of an enabled evaluation shoot is admitted
      exactly if the actuator will accept it. An empty one is always admitted, and
      accepted by the actuator exactly if the empty text decodes to acceptable
      values. */
  lemma WebhookAgreesWithActuator(decode: Decoder, exts: seq<Extension>)
    requires HasEnvoyGateway(exts) && !SomeDisabled(exts)
    ensures LastConfig(exts) != Some("") ==>
              (Judge(decode, exts, Some(PURPOSE_EVALUATION)).Allowed? <==> ActuatorAccepts(decode, LastConfig(exts)))
    ensures LastConfig(exts) == Some("") ==>
              && Judge(decode, exts, Some(PURPOSE_EVALUATION)).Allowed?
              && (ActuatorAccepts(decode, LastConfig(exts)) <==> decode("").Some? && Acceptable(decode("").value))
  {
  }

  /** A shoot the webhook admits and the actuator rejects, for every decoder that
      does not take the empty text. */
  lemma EmptyConfigIsAdmittedAndRejected(decode: Decoder)
    requires decode("").None?
    ensures var exts := [Extension(EXTENSION_TYPE, None, Some(""))];
            && Judge(decode, exts, Some(PURPOSE_EVALUATION)) == Allowed([])
            && !ActuatorAccepts(decode, LastConfig(exts))
  {
    var exts := [Extension(EXTENSION_TYPE, None, Some(""))];
    assert EnvoyGateway(exts[0]) && LastConfig(exts) == Some("");
    assert EXTENSION_TYPE != TRAEFIK_TYPE;
  }
}
