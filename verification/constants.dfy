/** Names, label keys and ports fixed by pkg/envoygateway/constants.go. */
module Constants {

  const NAMESPACE := "kube-system"
  const DEPLOYMENT_NAME := "envoy-gateway"
  const GATEWAY_CLASS_NAME := "gardener-envoy-gateway"

  const DATA_PLANE_POLICY_NAME := "envoy-gateway-proxies"
  const PROXY_EGRESS_POLICY_NAME := "envoy-gateway-proxies-egress"

  const LABEL_NAME := "app.kubernetes.io/name"
  const LABEL_INSTANCE := "app.kubernetes.io/instance"
  const LABEL_COMPONENT := "app.kubernetes.io/component"
  const LABEL_MANAGED_BY := "app.kubernetes.io/managed-by"
  const LABEL_HOP := "envoy-gateway.extensions.gardener.cloud/hop"
  const METADATA_NAME_LABEL := "kubernetes.io/metadata.name"
  const OWNING_GATEWAY_NAME_LABEL := "gateway.envoyproxy.io/owning-gateway-name"

  const COMPONENT_VALUE := "gateway-controller"
  const MANAGED_BY_GARDENER := "gardener"
  const MANAGED_BY_ENVOY_GATEWAY := "envoy-gateway"
  const PROXY_NAME_VALUE := "envoy"
  const HOP_PROXY_INGRESS := "proxy-ingress"
  const HOP_PROXY_EGRESS := "proxy-egress"

  const HTTP_PORT := 10080
  const HTTPS_PORT := 10443
  const READY_PORT := 19003
  const DNS_SERVICE_PORT := 53
  const DNS_SERVER_PORT := 8053
  const XDS_PORT := 18000
  const METRICS_PORT := 19001

  /** The label keys are pairwise distinct (they differ in length). */
  lemma LabelKeysDistinct()
    ensures |LABEL_NAME| == 22 && |LABEL_INSTANCE| == 26 && |LABEL_COMPONENT| == 27
    ensures |LABEL_MANAGED_BY| == 28 && |LABEL_HOP| == 43
    ensures |METADATA_NAME_LABEL| == 27 && METADATA_NAME_LABEL != LABEL_COMPONENT
    ensures |OWNING_GATEWAY_NAME_LABEL| == 41
  {
  }
}
