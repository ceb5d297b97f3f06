/** The network policies the extension writes: the two data-plane policies of a
    Gateway namespace and the control-plane policy of kube-system. */
module DataPlane {
  import opened Kube
  import opened Constants

  /** The data-plane hop a managed policy belongs to. */
  datatype Hop = ProxyIngress | ProxyEgress

  function HopLabel(hop: Hop): string {
    match hop
    case ProxyIngress => HOP_PROXY_INGRESS
    case ProxyEgress => HOP_PROXY_EGRESS
  }

  function PolicyName(hop: Hop): string {
    match hop
    case ProxyIngress => DATA_PLANE_POLICY_NAME
    case ProxyEgress => PROXY_EGRESS_POLICY_NAME
  }

  /** Labels envoy-gateway stamps on the data-plane proxy pods. */
  function ProxyLabels(): Labels {
    map[LABEL_MANAGED_BY := MANAGED_BY_ENVOY_GATEWAY, LABEL_NAME := PROXY_NAME_VALUE]
  }

  /** Labels that identify the control-plane pods. */
  function ControlPlaneLabels(): Labels {
    map[LABEL_NAME := DEPLOYMENT_NAME, LABEL_INSTANCE := DEPLOYMENT_NAME]
  }

  function ManagedLabels(name: string, hop: Hop): Labels {
    map[LABEL_MANAGED_BY := MANAGED_BY_GARDENER, LABEL_NAME := name, LABEL_HOP := HopLabel(hop)]
  }

  function CommonLabels(): Labels {
    map[LABEL_NAME := DEPLOYMENT_NAME, LABEL_INSTANCE := DEPLOYMENT_NAME,
        LABEL_COMPONENT := COMPONENT_VALUE, LABEL_MANAGED_BY := MANAGED_BY_GARDENER]
  }

  function IngressSpec(): PolicySpec {
    PolicySpec(
      ByLabels(ProxyLabels()), {Ingress},
      [Rule([], [PolicyPort(TCP, Port(HTTP_PORT)),
                 PolicyPort(TCP, Port(HTTPS_PORT)),
                 PolicyPort(TCP, Port(READY_PORT))])],
      [])
  }

  function DnsRule(): Rule {
    Rule([Pods(Some(EVERYTHING), None)],
         [PolicyPort(UDP, Port(DNS_SERVICE_PORT)), PolicyPort(TCP, Port(DNS_SERVICE_PORT)),
          PolicyPort(UDP, Port(DNS_SERVER_PORT)), PolicyPort(TCP, Port(DNS_SERVER_PORT))])
  }

  function XdsRule(): Rule {
    Rule([Pods(Some(ByLabels(map[METADATA_NAME_LABEL := NAMESPACE])), Some(ByLabels(ControlPlaneLabels())))],
         [PolicyPort(TCP, Port(XDS_PORT))])
  }

  function EgressSpec(): PolicySpec {
    PolicySpec(ByLabels(ProxyLabels()), {Egress}, [], [DnsRule(), XdsRule()])
  }

  /** The policy a Gateway namespace must hold for the given hop. */
  function Desired(namespace: string, hop: Hop): NetworkPolicy {
    NetworkPolicy(namespace, PolicyName(hop), ManagedLabels(PolicyName(hop), hop),
                  match hop case ProxyIngress => IngressSpec() case ProxyEgress => EgressSpec())
  }

  /** The policy delivered with the control plane: proxies of any namespace may
      reach the control-plane pods on the xDS and the metrics port. */
  function ControlPlanePolicy(): NetworkPolicy {
    NetworkPolicy(
      NAMESPACE, DEPLOYMENT_NAME, CommonLabels(),
      PolicySpec(
        ByLabels(ControlPlaneLabels()), {Ingress},
        [Rule([Pods(Some(EVERYTHING), Some(ByLabels(ProxyLabels())))],
              [PolicyPort(TCP, Port(XDS_PORT)), PolicyPort(TCP, Port(METRICS_PORT))])],
        []))
  }

  /** Names and labels of the two policies, written out. */
  lemma DesiredMeaning(namespace: string)
    ensures Desired(namespace, ProxyIngress).ObjectKey() == Key(namespace, "envoy-gateway-proxies")
    ensures Desired(namespace, ProxyEgress).ObjectKey() == Key(namespace, "envoy-gateway-proxies-egress")
    ensures Desired(namespace, ProxyIngress).labels ==
            map["app.kubernetes.io/managed-by" := "gardener", "app.kubernetes.io/name" := "envoy-gateway-proxies",
                "envoy-gateway.extensions.gardener.cloud/hop" := "proxy-ingress"]
    ensures Desired(namespace, ProxyEgress).labels ==
            map["app.kubernetes.io/managed-by" := "gardener", "app.kubernetes.io/name" := "envoy-gateway-proxies-egress",
                "envoy-gateway.extensions.gardener.cloud/hop" := "proxy-egress"]
  {
  }
}
