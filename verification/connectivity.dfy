/** What the managed policies mean for traffic, for every set of other policies
    in the cluster. */
module Connectivity {
  import opened Kube
  import opened Constants
  import opened DataPlane
  import opened Evaluator

  /** A data-plane proxy pod of the namespace. */
  predicate ProxyPod(e: Endpoint, ns: string) {
    e.Pod? && e.namespace == ns && Selects(ByLabels(ProxyLabels()), e.labels)
  }

  /** A pod the control-plane Deployment creates: its labels include those of the
      pod template, and its namespace carries its own name as a label. */
  predicate ControlPlanePod(e: Endpoint) {
    && e.Pod? && e.namespace == NAMESPACE
    && METADATA_NAME_LABEL in e.namespaceLabels && e.namespaceLabels[METADATA_NAME_LABEL] == NAMESPACE
    && forall k :: k in CommonLabels() ==> k in e.labels && e.labels[k] == CommonLabels()[k]
  }

  function HopKey(ns: string, hop: Hop): Key {
    Key(ns, PolicyName(hop))
  }

  /** The policies with both managed policies of the namespace in place. */
  function WithManaged(ps: Policies, ns: string): Policies {
    ps[HopKey(ns, ProxyIngress) := IngressSpec()][HopKey(ns, ProxyEgress) := EgressSpec()]
  }

  // ---- What a single managed policy grants ----

  predicate DataPlaneTraffic(c: Connection) {
    c.protocol.TCP? && (c.port == 10080 || c.port == 10443 || c.port == 19003)
  }

  predicate DnsTraffic(peer: Endpoint, c: Connection) {
    peer.Pod? && !c.protocol.SCTP? && (c.port == 53 || c.port == 8053)
  }

  predicate XdsTraffic(peer: Endpoint, c: Connection) {
    && peer.Pod? && c.protocol.TCP? && c.port == 18000
    && Lookup(peer.namespaceLabels, METADATA_NAME_LABEL) == NAMESPACE
    && Lookup(peer.labels, LABEL_NAME) == DEPLOYMENT_NAME && Lookup(peer.labels, LABEL_INSTANCE) == DEPLOYMENT_NAME
  }

  lemma IngressPolicyAllows(ns: string, pod: Endpoint, peer: Endpoint, c: Connection)
    ensures PolicyAllows(HopKey(ns, ProxyIngress), IngressSpec(), pod, Ingress, peer, c)
            <==> ProxyPod(pod, ns) && DataPlaneTraffic(c)
  {
    var r := IngressSpec().ingress[0];
    assert RulesOf(IngressSpec(), Ingress) == [r];
    if DataPlaneTraffic(c) {
      var i := if c.port == HTTP_PORT then 0 else if c.port == HTTPS_PORT then 1 else 2;
      assert PortMatches(r.ports[i], pod, c);
      assert RuleAllows(RulesOf(IngressSpec(), Ingress)[0], ns, peer, Destination(pod, peer, Ingress), c);
    }
  }

  lemma DnsRuleAllows(ns: string, peer: Endpoint, c: Connection)
    ensures RuleAllows(DnsRule(), ns, peer, peer, c) <==> DnsTraffic(peer, c)
  {
    var r := DnsRule();
    if DnsTraffic(peer, c) {
      assert PeerMatches(r.peers[0], ns, peer);
      var i := (if c.port == DNS_SERVICE_PORT then 0 else 2) + (if c.protocol.UDP? then 0 else 1);
      assert PortMatches(r.ports[i], peer, c);
    }
  }

  lemma XdsRuleAllows(ns: string, peer: Endpoint, c: Connection)
    ensures RuleAllows(XdsRule(), ns, peer, peer, c) <==> XdsTraffic(peer, c)
  {
    LabelKeysDistinct();
    var r := XdsRule();
    assert METADATA_NAME_LABEL in r.peers[0].namespaceSelector.value.matchLabels;
    assert LABEL_NAME in ControlPlaneLabels() && LABEL_INSTANCE in ControlPlaneLabels();
    if XdsTraffic(peer, c) {
      assert PeerMatches(r.peers[0], ns, peer);
      assert PortMatches(r.ports[0], peer, c);
    }
  }

  lemma EgressPolicyAllows(ns: string, pod: Endpoint, peer: Endpoint, c: Connection)
    ensures PolicyAllows(HopKey(ns, ProxyEgress), EgressSpec(), pod, Egress, peer, c)
            <==> ProxyPod(pod, ns) && (DnsTraffic(peer, c) || XdsTraffic(peer, c))
  {
    DnsRuleAllows(ns, peer, c);
    XdsRuleAllows(ns, peer, c);
    var rules := RulesOf(EgressSpec(), Egress);
    assert rules[0] == DnsRule() && rules[1] == XdsRule() && |rules| == 2;
  }

  /** What the namespace's managed policies grant a pod in a direction. */
  predicate ManagedGrant(d: Direction, peer: Endpoint, c: Connection) {
    match d
    case Ingress => DataPlaneTraffic(c)
    case Egress => DnsTraffic(peer, c) || XdsTraffic(peer, c)
  }

  function HopOf(d: Direction): Hop {
    match d case Ingress => ProxyIngress case Egress => ProxyEgress
  }

  /** Exact effect of the two policies: the namespace's proxy pods admit what
      other policies grant them plus the managed ports, everything else is as
      before. */
  lemma ManagedEffect(ps: Policies, ns: string, pod: Endpoint, d: Direction, peer: Endpoint, c: Connection)
    requires HopKey(ns, ProxyIngress) !in ps && HopKey(ns, ProxyEgress) !in ps
    ensures Admits(WithManaged(ps, ns), pod, d, peer, c) <==>
            if ProxyPod(pod, ns) then ManagedGrant(d, peer, c) || Granted(ps, pod, d, peer, c)
            else Admits(ps, pod, d, peer, c)
  {
    IngressPolicyAllows(ns, pod, peer, c);
    EgressPolicyAllows(ns, pod, peer, c);
    var own, spec := HopKey(ns, HopOf(d)), match d case Ingress => IngressSpec() case Egress => EgressSpec();
    assert Isolates(own, spec, pod, d) <==> ProxyPod(pod, ns);
    OtherHopIsMute(ns, pod, d, peer, c);
    AddingOne(ps, HopKey(ns, ProxyIngress), IngressSpec(), pod, d, peer, c);
    AddingOne(ps[HopKey(ns, ProxyIngress) := IngressSpec()], HopKey(ns, ProxyEgress), EgressSpec(), pod, d, peer, c);
  }

  /** The policy of the other direction does not touch this one. */
  lemma OtherHopIsMute(ns: string, pod: Endpoint, d: Direction, peer: Endpoint, c: Connection)
    ensures d.Ingress? ==> !Isolates(HopKey(ns, ProxyEgress), EgressSpec(), pod, d)
    ensures d.Egress? ==> !Isolates(HopKey(ns, ProxyIngress), IngressSpec(), pod, d)
  {
  }

  /** Policies add up: a new one isolates and grants beside the others. */
  lemma AddingOne(ps: Policies, k: Key, s: PolicySpec, pod: Endpoint, d: Direction, peer: Endpoint, c: Connection)
    requires k !in ps
    ensures Isolated(ps[k := s], pod, d) <==> Isolated(ps, pod, d) || Isolates(k, s, pod, d)
    ensures Granted(ps[k := s], pod, d, peer, c) <==> Granted(ps, pod, d, peer, c) || PolicyAllows(k, s, pod, d, peer, c)
  {
    var qs := ps[k := s];
    assert forall j :: j in qs ==> j == k || j in ps;
    assert forall j :: j in ps ==> j in qs && qs[j] == ps[j];
    assert k in qs && qs[k] == s;
  }

  /** Adding the policies takes no connection away from a proxy pod if and only
      if some other policy already isolates the pod. */
  lemma HarmlessIffIsolated(ps: Policies, ns: string, pod: Endpoint, d: Direction)
    requires HopKey(ns, ProxyIngress) !in ps && HopKey(ns, ProxyEgress) !in ps && ProxyPod(pod, ns)
    ensures (forall peer: Endpoint, c: Connection ::
               Admits(ps, pod, d, peer, c) ==> Admits(WithManaged(ps, ns), pod, d, peer, c))
            <==> Isolated(ps, pod, d)
  {
    forall peer: Endpoint, c: Connection
      ensures Admits(WithManaged(ps, ns), pod, d, peer, c) <==> ManagedGrant(d, peer, c) || Granted(ps, pod, d, peer, c)
    {
      ManagedEffect(ps, ns, pod, d, peer, c);
    }
    if !Isolated(ps, pod, d) {
      var peer, c := Outside(1), Connection(TCP, 443);
      assert !ManagedGrant(d, peer, c);
      assert Admits(ps, pod, d, peer, c) && !Admits(WithManaged(ps, ns), pod, d, peer, c);
    }
  }

  /** Where proxy pods are isolated already, adding the policies removes no
      connection and adds exactly the managed ones on the proxies' side. */
  lemma AddsExactly(ps: Policies, ns: string, source: Endpoint, destination: Endpoint, c: Connection)
    requires HopKey(ns, ProxyIngress) !in ps && HopKey(ns, ProxyEgress) !in ps
    requires ProxyPod(source, ns) ==> Isolated(ps, source, Egress)
    requires ProxyPod(destination, ns) ==> Isolated(ps, destination, Ingress)
    ensures Reachable(WithManaged(ps, ns), source, destination, c) <==>
            && (source.Pod? ==> Admits(ps, source, Egress, destination, c)
                                || (ProxyPod(source, ns) && (DnsTraffic(destination, c) || XdsTraffic(destination, c))))
            && (destination.Pod? ==> Admits(ps, destination, Ingress, source, c)
                                     || (ProxyPod(destination, ns) && DataPlaneTraffic(c)))
    ensures Reachable(ps, source, destination, c) ==> Reachable(WithManaged(ps, ns), source, destination, c)
  {
    ManagedEffect(ps, ns, source, Egress, destination, c);
    ManagedEffect(ps, ns, destination, Ingress, source, c);
  }

  /** The egress rule, the control-plane ingress rule and both pods' labels fit:
      whatever other policies exist, a proxy pod of a namespace that holds its
      egress policy reaches every control-plane pod on the xDS port. */
  lemma XdsReachable(ps: Policies, ns: string, proxy: Endpoint, controlPlane: Endpoint)
    requires HopKey(ns, ProxyEgress) in ps && ps[HopKey(ns, ProxyEgress)] == EgressSpec()
    requires ControlPlanePolicy().ObjectKey() in ps && ps[ControlPlanePolicy().ObjectKey()] == ControlPlanePolicy().spec
    requires ProxyPod(proxy, ns) && ControlPlanePod(controlPlane)
    ensures Reachable(ps, proxy, controlPlane, Connection(TCP, XDS_PORT))
  {
    var c := Connection(TCP, XDS_PORT);
    var k, spec := ControlPlanePolicy().ObjectKey(), ControlPlanePolicy().spec;
    LabelKeysDistinct();
    assert LABEL_NAME in CommonLabels() && LABEL_INSTANCE in CommonLabels();
    EgressPolicyAllows(ns, proxy, controlPlane, c);
    assert Granted(ps, proxy, Egress, controlPlane, c);
    var r := spec.ingress[0];
    assert PeerMatches(r.peers[0], NAMESPACE, proxy);
    assert PortMatches(r.ports[0], controlPlane, c);
    assert RuleAllows(RulesOf(spec, Ingress)[0], NAMESPACE, proxy, Destination(controlPlane, proxy, Ingress), c);
    assert PolicyAllows(k, ps[k], controlPlane, Ingress, proxy, c);
    assert Granted(ps, controlPlane, Ingress, proxy, c);
  }

  /** What the control-plane policy grants: exactly the xDS and the metrics port, from
      the proxy pods of any namespace to the control-plane pods. */
  lemma ControlPlanePolicyAllows(pod: Endpoint, peer: Endpoint, c: Connection, d: Direction)
    ensures var want := ControlPlanePolicy();
            PolicyAllows(want.ObjectKey(), want.spec, pod, d, peer, c) <==>
            && d.Ingress? && pod.Pod? && pod.namespace == NAMESPACE && Selects(ByLabels(ControlPlaneLabels()), pod.labels)
            && peer.Pod? && ProxyPod(peer, peer.namespace)
            && c.protocol.TCP? && (c.port == 18000 || c.port == 19001)
  {
    var spec := ControlPlanePolicy().spec;
    var r := spec.ingress[0];
    if d.Ingress? {
      assert RulesOf(spec, d) == [r];
      if c.protocol.TCP? && (c.port == 18000 || c.port == 19001) {
        assert PortMatches(r.ports[if c.port == 18000 then 0 else 1], pod, c);
      }
      if peer.Pod? && ProxyPod(peer, peer.namespace) {
        assert PeerMatches(r.peers[0], NAMESPACE, peer);
      }
      assert RuleAllows(RulesOf(spec, d)[0], NAMESPACE, peer, Destination(pod, peer, d), c) <==> RuleAllows(r, NAMESPACE, peer, pod, c);
    }
  }

  /** Proxy pods, control-plane pods and their namespace, with labels written out. */
  lemma EndpointsMeaning(e: Endpoint, ns: string)
    requires e.Pod?
    ensures ProxyPod(e, ns) <==>
            && e.namespace == ns
            && Lookup(e.labels, "app.kubernetes.io/managed-by") == "envoy-gateway" && Lookup(e.labels, "app.kubernetes.io/name") == "envoy"
    ensures Selects(ByLabels(ControlPlaneLabels()), e.labels) <==>
            && Lookup(e.labels, "app.kubernetes.io/name") == "envoy-gateway"
            && Lookup(e.labels, "app.kubernetes.io/instance") == "envoy-gateway"
    ensures XdsTraffic(e, Connection(TCP, 18000)) <==>
            && Lookup(e.namespaceLabels, "kubernetes.io/metadata.name") == "kube-system"
            && Lookup(e.labels, "app.kubernetes.io/name") == "envoy-gateway"
            && Lookup(e.labels, "app.kubernetes.io/instance") == "envoy-gateway"
  {
    LabelKeysDistinct();
    assert LABEL_MANAGED_BY in ProxyLabels() && LABEL_NAME in ProxyLabels();
    assert LABEL_NAME in ControlPlaneLabels() && LABEL_INSTANCE in ControlPlaneLabels();
  }
}
