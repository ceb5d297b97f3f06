/** Splitting the embedded CRD streams and merging them into the bundle. */
module Crds {
  import opened Kube

  /** A document of a YAML stream. `marshals` says whether it can be encoded. */
  datatype Document =
    | Undecodable
    | Document(kind: string, name: string, group: string, body: string, marshals: bool)

  const CRD_KIND := "CustomResourceDefinition"
  const ENVOY_GATEWAY_GROUP := "gateway.envoyproxy.io"
  const STANDARD := "gateway-api"
  const EXPERIMENTAL := "gateway-api-experimental"
  const ENVOY_GATEWAY := "envoy-gateway"

  type Manifests = map<string, Document>

  function ManifestName(prefix: string, name: string): string {
    "crd-" + prefix + "-" + name + ".yaml"
  }

  /** The documents a split keeps. */
  predicate Keeps(d: Document, groups: Option<set<string>>) {
    && d.Document? && d.kind == CRD_KIND && d.name != ""
    && (groups.Some? ==> d.group in groups.value)
  }

  /** Position of the last kept document of that name. */
  ghost predicate LastOf(docs: seq<Document>, groups: Option<set<string>>, name: string, i: nat) {
    && i < |docs| && Keeps(docs[i], groups) && docs[i].name == name
    && forall j :: i < j < |docs| && Keeps(docs[j], groups) ==> docs[j].name != name
  }

  /** Document i is the last kept one of its name, and gives the manifest. */
  ghost predicate Gives(docs: seq<Document>, prefix: string, groups: Option<set<string>>, i: nat, k: string, d: Document) {
    && i < |docs| && docs[i] == d && Keeps(d, groups) && k == ManifestName(prefix, d.name)
    && LastOf(docs, groups, d.name, i)
  }

  /** The manifests of a split: for every kept name the last document of that
      name, and nothing else. */
  ghost predicate IsSplit(docs: seq<Document>, prefix: string, groups: Option<set<string>>, m: Manifests) {
    && (forall i :: 0 <= i < |docs| && Keeps(docs[i], groups) ==> ManifestName(prefix, docs[i].name) in m)
    && (forall k :: k in m ==> exists i: nat :: Gives(docs, prefix, groups, i, k, m[k]))
  }

  /** Manifest names differ where the CRD names differ. */
  lemma ManifestNameInjective(prefix: string, a: string, b: string)
    requires ManifestName(prefix, a) == ManifestName(prefix, b)
    ensures a == b
  {
    var n := |"crd-" + prefix + "-"|;
    var s, t := ManifestName(prefix, a), ManifestName(prefix, b);
    assert s[n..|s| - 5] == a && t[n..|t| - 5] == b;
  }

  /** Splits a stream, skipping what is no CRD or not of a kept group; fails only
      if a kept document cannot be encoded. */
  method SplitCRDs(docs: seq<Document>, prefix: string, groups: Option<set<string>>) returns (r: Option<Manifests>)
    ensures r.None? <==> exists i :: 0 <= i < |docs| && Keeps(docs[i], groups) && !docs[i].marshals
    ensures r.Some? ==> IsSplit(docs, prefix, groups, r.value)
  {
    var result: Manifests := map[];
    var i := 0;
    while i < |docs|
      invariant 0 <= i <= |docs|
      invariant forall j :: 0 <= j < i && Keeps(docs[j], groups) ==> docs[j].marshals
      invariant IsSplit(docs[..i], prefix, groups, result)
    {
      var d := docs[i];
      ghost var before, after := docs[..i], docs[..i + 1];
      assert after == before + [d];
      if Keeps(d, groups) {
        if !d.marshals { return None; }
        SplitStep(before, d, prefix, groups, result);
        result := result[ManifestName(prefix, d.name) := d];
      } else {
        SplitSkip(before, d, prefix, groups, result);
      }
      i := i + 1;
    }
    assert docs[..|docs|] == docs;
    r := Some(result);
  }

  lemma SplitStep(docs: seq<Document>, d: Document, prefix: string, groups: Option<set<string>>, m: Manifests)
    requires IsSplit(docs, prefix, groups, m) && Keeps(d, groups)
    ensures IsSplit(docs + [d], prefix, groups, m[ManifestName(prefix, d.name) := d])
  {
    var all, m' := docs + [d], m[ManifestName(prefix, d.name) := d];
    forall k | k in m'
      ensures exists i: nat :: Gives(all, prefix, groups, i, k, m'[k])
    {
      if k == ManifestName(prefix, d.name) {
        assert Gives(all, prefix, groups, |docs|, k, d);
      } else {
        var i: nat :| Gives(docs, prefix, groups, i, k, m[k]);
        assert Gives(all, prefix, groups, i, k, m[k]);
      }
    }
  }

  lemma SplitSkip(docs: seq<Document>, d: Document, prefix: string, groups: Option<set<string>>, m: Manifests)
    requires IsSplit(docs, prefix, groups, m) && !Keeps(d, groups)
    ensures IsSplit(docs + [d], prefix, groups, m)
  {
    var all := docs + [d];
    forall k | k in m
      ensures exists i: nat :: Gives(all, prefix, groups, i, k, m[k])
    {
      var i: nat :| Gives(docs, prefix, groups, i, k, m[k]);
      assert Gives(all, prefix, groups, i, k, m[k]);
    }
  }

  /** The Gateway API assets never collide with the envoy-gateway asset. */
  lemma AssetsNeverCollide(a: string, b: string)
    ensures ManifestName(STANDARD, a) != ManifestName(ENVOY_GATEWAY, b)
    ensures ManifestName(EXPERIMENTAL, a) != ManifestName(ENVOY_GATEWAY, b)
  {
    assert ManifestName(STANDARD, a)[4] == 'g';
    assert ManifestName(EXPERIMENTAL, a)[4] == 'g';
    assert ManifestName(ENVOY_GATEWAY, b)[4] == 'e';
  }

  /** On the experimental channel an experimental CRD replaces a standard one
      exactly if the standard one's name spells out the prefix. */
  lemma ChannelsCollideIff(a: string, b: string)
    ensures ManifestName(STANDARD, a) == ManifestName(EXPERIMENTAL, b) <==> a == "experimental-" + b
  {
    assert "crd-" + EXPERIMENTAL + "-" == "crd-" + STANDARD + "-" + "experimental-";
    assert ManifestName(EXPERIMENTAL, b) == ManifestName(STANDARD, "experimental-" + b);
    if ManifestName(STANDARD, a) == ManifestName(EXPERIMENTAL, b) {
      ManifestNameInjective(STANDARD, a, "experimental-" + b);
    }
  }

  /** Every kept document of the asset can be encoded. */
  predicate Encodable(docs: seq<Document>, groups: Option<set<string>>) {
    forall i :: 0 <= i < |docs| && Keeps(docs[i], groups) ==> docs[i].marshals
  }

  /** The last kept document of every name is there. */
  ghost predicate Holds(m: Manifests, docs: seq<Document>, prefix: string, groups: Option<set<string>>) {
    forall i: nat :: i < |docs| && Keeps(docs[i], groups) && LastOf(docs, groups, docs[i].name, i) ==>
      ManifestName(prefix, docs[i].name) in m && m[ManifestName(prefix, docs[i].name)] == docs[i]
  }

  lemma SplitHolds(docs: seq<Document>, prefix: string, groups: Option<set<string>>, m: Manifests)
    requires IsSplit(docs, prefix, groups, m)
    ensures Holds(m, docs, prefix, groups)
  {
    forall i: nat | i < |docs| && Keeps(docs[i], groups) && LastOf(docs, groups, docs[i].name, i)
      ensures ManifestName(prefix, docs[i].name) in m && m[ManifestName(prefix, docs[i].name)] == docs[i]
    {
      var k := ManifestName(prefix, docs[i].name);
      var j: nat :| Gives(docs, prefix, groups, j, k, m[k]);
      ManifestNameInjective(prefix, docs[i].name, docs[j].name);
    }
  }

  const OWN_GROUP: Option<set<string>> := Some({ENVOY_GATEWAY_GROUP})

  /** The manifest is that of a document of the asset. */
  ghost predicate From(docs: seq<Document>, prefix: string, groups: Option<set<string>>, k: string, d: Document) {
    exists i: nat :: Gives(docs, prefix, groups, i, k, d)
  }

  /** What an asset adds under a prefix that no manifest of `own` has, stays. */
  lemma HoldsBeside(m: Manifests, docs: seq<Document>, prefix: string, envoyGateway: seq<Document>, own: Manifests)
    requires Holds(m, docs, prefix, None) && prefix in {STANDARD, EXPERIMENTAL}
    requires IsSplit(envoyGateway, ENVOY_GATEWAY, OWN_GROUP, own)
    ensures Holds(m + own, docs, prefix, None)
  {
    forall i: nat, k | i < |docs| && Keeps(docs[i], None) && k in own
      ensures k != ManifestName(prefix, docs[i].name)
    {
      var j: nat :| Gives(envoyGateway, ENVOY_GATEWAY, OWN_GROUP, j, k, own[k]);
      AssetsNeverCollide(docs[i].name, envoyGateway[j].name);
    }
  }

  /** A kept experimental document takes the manifest name of the standard one. */
  ghost predicate Displaced(name: string, experimental: seq<Document>) {
    exists j :: 0 <= j < |experimental| && Keeps(experimental[j], None) && name == "experimental-" + experimental[j].name
  }

  /** The standard asset is there in full, apart from displaced names. */
  ghost predicate HoldsApart(m: Manifests, standard: seq<Document>, experimental: seq<Document>) {
    forall i: nat :: i < |standard| && Keeps(standard[i], None) && LastOf(standard, None, standard[i].name, i) ==>
      || Displaced(standard[i].name, experimental)
      || (ManifestName(STANDARD, standard[i].name) in m && m[ManifestName(STANDARD, standard[i].name)] == standard[i])
  }

  lemma ApartFromExperimental(m: Manifests, standard: seq<Document>, experimental: seq<Document>, added: Manifests)
    requires Holds(m, standard, STANDARD, None)
    requires forall k :: k in added ==> From(experimental, EXPERIMENTAL, None, k, added[k])
    ensures HoldsApart(m + added, standard, experimental)
  {
    forall i: nat | i < |standard| && Keeps(standard[i], None) && !Displaced(standard[i].name, experimental)
      ensures ManifestName(STANDARD, standard[i].name) !in added
    {
      var k := ManifestName(STANDARD, standard[i].name);
      if k in added {
        var j: nat :| Gives(experimental, EXPERIMENTAL, None, j, k, added[k]);
        ChannelsCollideIff(standard[i].name, experimental[j].name);
      }
    }
  }

  lemma ApartBesideOwn(m: Manifests, standard: seq<Document>, experimental: seq<Document>, envoyGateway: seq<Document>, own: Manifests)
    requires HoldsApart(m, standard, experimental)
    requires forall k :: k in own ==> From(envoyGateway, ENVOY_GATEWAY, OWN_GROUP, k, own[k])
    ensures HoldsApart(m + own, standard, experimental)
  {
    forall i: nat, k | i < |standard| && Keeps(standard[i], None) && k in own
      ensures k != ManifestName(STANDARD, standard[i].name)
    {
      var j: nat :| Gives(envoyGateway, ENVOY_GATEWAY, OWN_GROUP, j, k, own[k]);
      AssetsNeverCollide(standard[i].name, envoyGateway[j].name);
    }
  }

  /** A CRD with a name. */
  predicate IsCRD(d: Document) {
    d.Document? && d.kind == "CustomResourceDefinition" && d.name != ""
  }

  /** Every manifest of the envoy-gateway asset is a named CRD of its own API group, and
      every such CRD of the asset has one: the bundled Gateway API CRDs are left out. */
  lemma OwnGroupOnly(docs: seq<Document>, m: Manifests)
    requires IsSplit(docs, ENVOY_GATEWAY, OWN_GROUP, m)
    ensures forall k :: k in m ==> IsCRD(m[k]) && m[k].group == "gateway.envoyproxy.io"
    ensures forall i :: 0 <= i < |docs| && IsCRD(docs[i]) && docs[i].group == "gateway.envoyproxy.io" ==>
              "crd-envoy-gateway-" + docs[i].name + ".yaml" in m
  {
    forall k | k in m
      ensures IsCRD(m[k]) && m[k].group == "gateway.envoyproxy.io"
    {
      var i: nat :| Gives(docs, ENVOY_GATEWAY, OWN_GROUP, i, k, m[k]);
    }
    assert forall name: string :: ManifestName(ENVOY_GATEWAY, name) == "crd-envoy-gateway-" + name + ".yaml";
  }

  /** Without a group filter every named CRD has its manifest. */
  lemma AllGroups(docs: seq<Document>, prefix: string, m: Manifests)
    requires IsSplit(docs, prefix, None, m)
    ensures forall i :: 0 <= i < |docs| && IsCRD(docs[i]) ==> "crd-" + prefix + "-" + docs[i].name + ".yaml" in m
  {
    assert forall name: string :: ManifestName(prefix, name) == "crd-" + prefix + "-" + name + ".yaml";
  }

  /** One asset, added if it can be encoded. */
  method AddAsset(resources: Manifests, docs: seq<Document>, prefix: string, groups: Option<set<string>>)
    returns (merged: Manifests, ghost added: Manifests)
    ensures merged == resources + added
    ensures if Encodable(docs, groups) then IsSplit(docs, prefix, groups, added) else added == map[]
    ensures Encodable(docs, groups) ==> Holds(merged, docs, prefix, groups)
    ensures forall k :: k in added ==> From(docs, prefix, groups, k, added[k])
  {
    var split := SplitCRDs(docs, prefix, groups);
    if split.None? { return resources, map[]; }
    merged, added := resources + split.value, split.value;
    SplitHolds(docs, prefix, groups, split.value);
  }

  /** The Gateway API assets: the standard one, and the experimental one on top. */
  method AddGatewayAPI(resources: Manifests, standard: seq<Document>, experimental: seq<Document>, experimentalFeatures: bool)
    returns (merged: Manifests)
    ensures !experimentalFeatures && Encodable(standard, None) ==> Holds(merged, standard, STANDARD, None)
    ensures experimentalFeatures && Encodable(experimental, None) ==> Holds(merged, experimental, EXPERIMENTAL, None)
    ensures experimentalFeatures && Encodable(standard, None) ==> HoldsApart(merged, standard, experimental)
    ensures forall k :: k in resources ==> k in merged
    ensures forall k :: k in merged && (k !in resources || merged[k] != resources[k]) ==>
              || From(standard, STANDARD, None, k, merged[k])
              || (experimentalFeatures && From(experimental, EXPERIMENTAL, None, k, merged[k]))
  {
    ghost var added;
    merged, added := AddAsset(resources, standard, STANDARD, None);
    if experimentalFeatures {
      ghost var before := merged;
      merged, added := AddAsset(merged, experimental, EXPERIMENTAL, None);
      if Encodable(standard, None) { ApartFromExperimental(before, standard, experimental, added); }
    }
  }

  /** Adds the CRDs of the assets to the resources; an asset with a document that
      cannot be encoded is left out. The envoy-gateway asset and that of the
      chosen channel are there in full; on the experimental channel the standard
      one is too, apart from displaced names; nothing else is added or replaced. */
  method AddCRDs(resources: Manifests, standard: seq<Document>, experimental: seq<Document>, envoyGateway: seq<Document>,
                 experimentalFeatures: bool)
    returns (merged: Manifests)
    ensures Encodable(envoyGateway, OWN_GROUP) ==> Holds(merged, envoyGateway, ENVOY_GATEWAY, OWN_GROUP)
    ensures !experimentalFeatures && Encodable(standard, None) ==> Holds(merged, standard, STANDARD, None)
    ensures experimentalFeatures && Encodable(experimental, None) ==> Holds(merged, experimental, EXPERIMENTAL, None)
    ensures experimentalFeatures && Encodable(standard, None) ==> HoldsApart(merged, standard, experimental)
    ensures forall k :: k in resources ==> k in merged
    ensures forall k :: k in merged && (k !in resources || merged[k] != resources[k]) ==>
              || From(standard, STANDARD, None, k, merged[k])
              || (experimentalFeatures && From(experimental, EXPERIMENTAL, None, k, merged[k]))
              || From(envoyGateway, ENVOY_GATEWAY, OWN_GROUP, k, merged[k])
  {
    merged := AddGatewayAPI(resources, standard, experimental, experimentalFeatures);
    ghost var gatewayAPI, added := merged, map[];
    merged, added := AddAsset(merged, envoyGateway, ENVOY_GATEWAY, OWN_GROUP);
    if Encodable(envoyGateway, OWN_GROUP) {
      if !experimentalFeatures && Encodable(standard, None) {
        HoldsBeside(gatewayAPI, standard, STANDARD, envoyGateway, added);
      }
      if experimentalFeatures && Encodable(experimental, None) {
        HoldsBeside(gatewayAPI, experimental, EXPERIMENTAL, envoyGateway, added);
      }
    }
    if experimentalFeatures && Encodable(standard, None) {
      ApartBesideOwn(gatewayAPI, standard, experimental, envoyGateway, added);
    }
  }
}
