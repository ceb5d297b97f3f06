/** The objects of a shoot: the ones the deployer delivers, and the orphans that the
    sweep is after. */
module Worlds {
  import opened Kube
  import opened Constants
  import opened DataPlane
  import opened ProviderConfigs

  // ---- Shoot objects ----

  datatype Kind =
    | Service
    | Deployment
    | ServiceAccount
    | ConfigMap
    | PodDisruptionBudget
    | HorizontalPodAutoscaler
    | OtherKind(name: string)

  datatype ObjectKey = ObjectKey(kind: Kind, namespace: string, name: string)

  /** Objects of the shoot other than Gateways and policies, by their labels. */
  type Objects = map<ObjectKey, Labels>

  /** The kinds the orphan sweep looks at. */
  const SWEPT_KINDS := [Service, Deployment, ServiceAccount, ConfigMap, PodDisruptionBudget, HorizontalPodAutoscaler]

  /** What the sweep lists: objects in kube-system managed by envoy-gateway. */
  predicate SweepLists(k: ObjectKey, labels: Labels) {
    k.namespace == NAMESPACE && LABEL_MANAGED_BY in labels && labels[LABEL_MANAGED_BY] == MANAGED_BY_ENVOY_GATEWAY
  }

  /** What it deletes of those. */
  predicate IsOrphanedDataPlaneObject(labels: Labels) {
    OWNING_GATEWAY_NAME_LABEL in labels
  }

  /** A leftover of the deploy mode that put the proxies of all Gateways into
      kube-system: one of six kinds, there, with both labels envoy-gateway gives it. */
  predicate Orphan(k: ObjectKey, labels: Labels) {
    && (k.kind.Service? || k.kind.Deployment? || k.kind.ServiceAccount? || k.kind.ConfigMap?
        || k.kind.PodDisruptionBudget? || k.kind.HorizontalPodAutoscaler?)
    && k.namespace == NAMESPACE
    && LABEL_MANAGED_BY in labels && labels[LABEL_MANAGED_BY] == MANAGED_BY_ENVOY_GATEWAY
    && OWNING_GATEWAY_NAME_LABEL in labels
  }

  /** The same with names and values written out. */
  lemma OrphanMeaning(k: ObjectKey, labels: Labels)
    ensures Orphan(k, labels) <==>
            && !k.kind.OtherKind? && k.namespace == "kube-system"
            && "app.kubernetes.io/managed-by" in labels && labels["app.kubernetes.io/managed-by"] == "envoy-gateway"
            && "gateway.envoyproxy.io/owning-gateway-name" in labels
  {
  }

  /** The sweep looks at exactly those. */
  lemma SweepFindsOrphans(k: ObjectKey, labels: Labels)
    ensures Orphan(k, labels) <==> k.kind in SWEPT_KINDS && SweepLists(k, labels) && IsOrphanedDataPlaneObject(labels)
  {
    SweptKindsAreAll();
  }

  /** The swept kinds are all the kinds named here. */
  lemma SweptKindsAreAll()
    ensures forall kind: Kind :: kind in SWEPT_KINDS <==> !kind.OtherKind?
  {
  }

  function OrphansOf(objects: Objects): set<ObjectKey> {
    set k | k in objects && Orphan(k, objects[k])
  }

  predicate NoOrphans(objects: Objects) {
    OrphansOf(objects) == {}
  }

  // ---- What the deployer delivers ----

  const CLASS_LABELS: Labels :=
    map[LABEL_NAME := DEPLOYMENT_NAME, LABEL_INSTANCE := DEPLOYMENT_NAME, LABEL_MANAGED_BY := MANAGED_BY_GARDENER]

  const GUARD_LABELS: Labels :=
    map[LABEL_MANAGED_BY := MANAGED_BY_GARDENER, LABEL_NAME := MANAGED_BY_ENVOY_GATEWAY]

  function Labelled(keys: set<ObjectKey>, labels: Labels): Objects {
    map k | k in keys :: labels
  }

  /** The control-plane policy, which also is one of the shoot's policies. */
  const POLICY_OBJECT := ObjectKey(OtherKind("NetworkPolicy"), NAMESPACE, DEPLOYMENT_NAME)

  const CONTROL_PLANE_KEYS: set<ObjectKey> := {
    ObjectKey(ServiceAccount, NAMESPACE, "envoy-gateway"),
    ObjectKey(ConfigMap, NAMESPACE, "envoy-gateway-config"),
    ObjectKey(OtherKind("ClusterRole"), "", "envoy-gateway"),
    ObjectKey(OtherKind("ClusterRoleBinding"), "", "envoy-gateway"),
    ObjectKey(OtherKind("Role"), NAMESPACE, "envoy-gateway-leader-election"),
    ObjectKey(OtherKind("RoleBinding"), NAMESPACE, "envoy-gateway-leader-election"),
    ObjectKey(Deployment, NAMESPACE, DEPLOYMENT_NAME),
    ObjectKey(Service, NAMESPACE, DEPLOYMENT_NAME),
    ObjectKey(PodDisruptionBudget, NAMESPACE, DEPLOYMENT_NAME),
    POLICY_OBJECT,
    ObjectKey(OtherKind("Secret"), NAMESPACE, "envoy-gateway"),
    ObjectKey(OtherKind("Secret"), NAMESPACE, "envoy"),
    ObjectKey(OtherKind("Secret"), NAMESPACE, "envoy-oidc-hmac")
  }

  const CLASS_KEYS: set<ObjectKey> := {
    ObjectKey(OtherKind("GatewayClass"), "", GATEWAY_CLASS_NAME),
    ObjectKey(OtherKind("EnvoyProxy"), NAMESPACE, "envoy-gateway-defaults")
  }

  const GUARD_KEYS: set<ObjectKey> := {
    ObjectKey(OtherKind("ValidatingAdmissionPolicy"), "", "envoyproxy-deploy-guard.gardener.cloud"),
    ObjectKey(OtherKind("ValidatingAdmissionPolicyBinding"), "", "envoyproxy-deploy-guard.gardener.cloud")
  }

  const NETPOL_CONTROLLER_KEYS: set<ObjectKey> := {
    ObjectKey(ServiceAccount, NAMESPACE, "envoy-gateway-netpol-controller"),
    ObjectKey(OtherKind("ClusterRole"), "", "envoy-gateway-netpol-controller"),
    ObjectKey(OtherKind("ClusterRoleBinding"), "", "envoy-gateway-netpol-controller")
  }

  function CrdObjects(names: set<string>): Objects {
    Labelled(set n | n in names :: ObjectKey(OtherKind("CustomResourceDefinition"), "", n), map[])
  }

  /** What is fixed outside the configuration: images, the kubeconfig secret, the
      embedded CRDs, and from which version on the guard's API is served. */
  datatype Platform = Platform(image: string, kubeconfig: string, crds: bool -> set<string>, servesGuard: string -> bool)

  function When(condition: bool, objects: Objects): Objects {
    if condition then objects else map[]
  }

  /** The bundle for a configuration. */
  function Bundle(p: Platform, cfg: Config): Objects {
    Labelled(CONTROL_PLANE_KEYS, CommonLabels())
    + Labelled(CLASS_KEYS, CLASS_LABELS)
    + When(p.servesGuard(cfg.shootKubernetesVersion), Labelled(GUARD_KEYS, GUARD_LABELS))
    + When(cfg.manageCRDs, CrdObjects(p.crds(cfg.experimentalFeatures)))
    + When(cfg.manageDataPlaneNetworkPolicies, Labelled(NETPOL_CONTROLLER_KEYS, CommonLabels()))
  }

  /** Objects of the swept kinds carry this extension's managed-by value. */
  predicate Ours(objects: Objects) {
    forall k :: k in objects ==> k.kind.OtherKind? || Lookup(objects[k], LABEL_MANAGED_BY) == MANAGED_BY_GARDENER
  }

  lemma LabelledIsOurs(keys: set<ObjectKey>, labels: Labels)
    requires Lookup(labels, LABEL_MANAGED_BY) == MANAGED_BY_GARDENER || forall k :: k in keys ==> k.kind.OtherKind?
    ensures Ours(Labelled(keys, labels))
  {
  }

  lemma UnionIsOurs(a: Objects, b: Objects, c: Objects, d: Objects, e: Objects)
    requires Ours(a) && Ours(b) && Ours(c) && Ours(d) && Ours(e)
    ensures Ours(a + b + c + d + e)
  {
  }

  lemma OurLabels()
    ensures Lookup(CommonLabels(), LABEL_MANAGED_BY) == MANAGED_BY_GARDENER
    ensures Lookup(CLASS_LABELS, LABEL_MANAGED_BY) == MANAGED_BY_GARDENER
    ensures Lookup(GUARD_LABELS, LABEL_MANAGED_BY) == MANAGED_BY_GARDENER
  {
  }

  lemma OursIsNeverSwept(objects: Objects)
    requires Ours(objects)
    ensures NoOrphans(objects)
  {
  }

  lemma WhenIsOurs(condition: bool, keys: set<ObjectKey>, labels: Labels)
    requires Lookup(labels, LABEL_MANAGED_BY) == MANAGED_BY_GARDENER
    ensures Ours(When(condition, Labelled(keys, labels)))
  {
  }

  lemma CrdsAreOurs(condition: bool, names: set<string>)
    ensures Ours(When(condition, CrdObjects(names)))
  {
  }

  /** For every configuration, nothing the deployer delivers is ever swept. */
  lemma BundleIsNeverSwept(p: Platform, cfg: Config)
    ensures NoOrphans(Bundle(p, cfg))
  {
    OurLabels();
    LabelledIsOurs(CONTROL_PLANE_KEYS, CommonLabels());
    LabelledIsOurs(CLASS_KEYS, CLASS_LABELS);
    WhenIsOurs(p.servesGuard(cfg.shootKubernetesVersion), GUARD_KEYS, GUARD_LABELS);
    CrdsAreOurs(cfg.manageCRDs, p.crds(cfg.experimentalFeatures));
    WhenIsOurs(cfg.manageDataPlaneNetworkPolicies, NETPOL_CONTROLLER_KEYS, CommonLabels());
    UnionIsOurs(Labelled(CONTROL_PLANE_KEYS, CommonLabels()),
                Labelled(CLASS_KEYS, CLASS_LABELS),
                When(p.servesGuard(cfg.shootKubernetesVersion), Labelled(GUARD_KEYS, GUARD_LABELS)),
                When(cfg.manageCRDs, CrdObjects(p.crds(cfg.experimentalFeatures))),
                When(cfg.manageDataPlaneNetworkPolicies, Labelled(NETPOL_CONTROLLER_KEYS, CommonLabels())));
    OursIsNeverSwept(Bundle(p, cfg));
  }

  // ---- What is in a bundle ----

  lemma KeysOfBundle(p: Platform, cfg: Config, k: ObjectKey)
    ensures k in Bundle(p, cfg) <==>
            || k in CONTROL_PLANE_KEYS || k in CLASS_KEYS
            || (p.servesGuard(cfg.shootKubernetesVersion) && k in GUARD_KEYS)
            || (cfg.manageCRDs && k in CrdObjects(p.crds(cfg.experimentalFeatures)))
            || (cfg.manageDataPlaneNetworkPolicies && k in NETPOL_CONTROLLER_KEYS)
  {
  }

  /** CRDs are in no fixed part. */
  lemma FixedKeys(name: string)
    ensures var crd := ObjectKey(OtherKind("CustomResourceDefinition"), "", name);
            crd !in CONTROL_PLANE_KEYS && crd !in CLASS_KEYS && crd !in GUARD_KEYS && crd !in NETPOL_CONTROLLER_KEYS
  {
    var kind := "CustomResourceDefinition";
    assert |kind| == 24;
    assert |"ClusterRole"| == 11 && |"ClusterRoleBinding"| == 18 && |"Role"| == 4 && |"RoleBinding"| == 11;
    assert |"NetworkPolicy"| == 13 && |"Secret"| == 6 && |"GatewayClass"| == 12 && |"EnvoyProxy"| == 10;
    assert |"ValidatingAdmissionPolicy"| == 25 && |"ValidatingAdmissionPolicyBinding"| == 32;
  }

  lemma CrdKey(names: set<string>, k: ObjectKey)
    ensures k in CrdObjects(names) <==> k.kind == OtherKind("CustomResourceDefinition") && k.namespace == "" && k.name in names
  {
  }

  /** The CRDs of the channel are delivered exactly if they are managed. */
  lemma CrdsDelivered(p: Platform, cfg: Config, name: string)
    ensures ObjectKey(OtherKind("CustomResourceDefinition"), "", name) in Bundle(p, cfg)
            <==> cfg.manageCRDs && name in p.crds(cfg.experimentalFeatures)
  {
    var k := ObjectKey(OtherKind("CustomResourceDefinition"), "", name);
    KeysOfBundle(p, cfg, k);
    FixedKeys(name);
    CrdKey(p.crds(cfg.experimentalFeatures), k);
  }

  lemma GuardNameApart(k: ObjectKey)
    requires k.name == "envoyproxy-deploy-guard.gardener.cloud"
    ensures k !in CONTROL_PLANE_KEYS && k !in CLASS_KEYS && k !in NETPOL_CONTROLLER_KEYS
  {
    assert |k.name| == 38;
    assert forall j :: j in CONTROL_PLANE_KEYS ==> |j.name| != 38;
    assert forall j :: j in CLASS_KEYS + NETPOL_CONTROLLER_KEYS ==> |j.name| != 38;
  }

  /** The admission guard is delivered exactly where its API is served. */
  lemma GuardDelivered(p: Platform, cfg: Config, k: ObjectKey)
    requires k.name == "envoyproxy-deploy-guard.gardener.cloud"
    requires || k == ObjectKey(OtherKind("ValidatingAdmissionPolicy"), "", k.name)
             || k == ObjectKey(OtherKind("ValidatingAdmissionPolicyBinding"), "", k.name)
    ensures k in Bundle(p, cfg) <==> p.servesGuard(cfg.shootKubernetesVersion)
  {
    KeysOfBundle(p, cfg, k);
    CrdKey(p.crds(cfg.experimentalFeatures), k);
    GuardNameApart(k);
    assert k in GUARD_KEYS;
    assert |"CustomResourceDefinition"| == 24;
    assert |"ValidatingAdmissionPolicy"| == 25 && |"ValidatingAdmissionPolicyBinding"| == 32;
  }

  /** The RBAC of the policy controller is delivered exactly if it is switched on. */
  lemma NetpolRbacDelivered(p: Platform, cfg: Config, k: ObjectKey)
    requires k.name == "envoy-gateway-netpol-controller"
    requires || k == ObjectKey(ServiceAccount, "kube-system", k.name)
             || k == ObjectKey(OtherKind("ClusterRole"), "", k.name) || k == ObjectKey(OtherKind("ClusterRoleBinding"), "", k.name)
    ensures k in Bundle(p, cfg) <==> cfg.manageDataPlaneNetworkPolicies
  {
    KeysOfBundle(p, cfg, k);
    CrdKey(p.crds(cfg.experimentalFeatures), k);
    assert k in NETPOL_CONTROLLER_KEYS;
    NetpolNameApart(k);
    assert |"CustomResourceDefinition"| == 24 && |"ClusterRole"| == 11 && |"ClusterRoleBinding"| == 18;
  }

  lemma NetpolNameApart(k: ObjectKey)
    requires k.name == "envoy-gateway-netpol-controller"
    ensures k !in CONTROL_PLANE_KEYS && k !in CLASS_KEYS && k !in GUARD_KEYS
  {
    assert |k.name| == 31;
    assert forall j :: j in CONTROL_PLANE_KEYS ==> |j.name| != 31;
    assert forall j :: j in CLASS_KEYS + GUARD_KEYS ==> |j.name| != 31;
  }
}
