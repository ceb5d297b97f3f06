/** The watch filters and the mapping of watched objects to reconcile requests. */
module Watches {
  import opened Kube
  import opened Constants
  import opened DataPlane

  /** A Gateway; `rest` stands for everything but its class. */
  datatype Gateway = Gateway(className: string, rest: int)

  /** A policy as stored by the API server. */
  datatype Stored = Stored(labels: Labels, spec: PolicySpec, annotations: Labels, resourceVersion: nat)

  /** What an informer tells its handlers. */
  datatype Notification<V> =
    | Created(object: V)
    | Updated(objectOld: V, objectNew: V)
    | Deleted(object: V)

  predicate IsManagedGateway(gw: Gateway) {
    gw.className == GATEWAY_CLASS_NAME
  }

  predicate ManagedGatewayPredicate(n: Notification<Gateway>) {
    match n
    case Created(gw) => IsManagedGateway(gw)
    case Updated(_, gw) => IsManagedGateway(gw)
    case Deleted(gw) => IsManagedGateway(gw)
  }

  predicate IsManagedPolicy(labels: Labels) {
    Lookup(labels, LABEL_MANAGED_BY) == MANAGED_BY_GARDENER && Lookup(labels, LABEL_HOP) != ""
  }

  predicate ManagedPolicyPredicate(n: Notification<Stored>) {
    match n
    case Created(np) => IsManagedPolicy(np.labels)
    case Updated(_, np) => IsManagedPolicy(np.labels)
    case Deleted(np) => IsManagedPolicy(np.labels)
  }

  /** The requests for one policy object: its namespace, for a known hop only. */
  function MapManagedPolicyToRequests(namespace: string, labels: Labels): set<string> {
    var hop := Lookup(labels, LABEL_HOP);
    if hop == HOP_PROXY_INGRESS || hop == HOP_PROXY_EGRESS then {namespace} else {}
  }

  function MapGatewayToRequests(namespace: string): set<string> {
    {namespace}
  }

  /** Requests raised by a Gateway notification: filter, then map. */
  function GatewayRequests(namespace: string, n: Notification<Gateway>): set<string> {
    if ManagedGatewayPredicate(n) then MapGatewayToRequests(namespace) else {}
  }

  /** Requests raised by a policy notification. The map-function handler maps
      the old and the new object of an update. */
  function PolicyRequests(namespace: string, n: Notification<Stored>): set<string> {
    if !ManagedPolicyPredicate(n) then {} else
    match n
    case Created(np) => MapManagedPolicyToRequests(namespace, np.labels)
    case Updated(before, after) =>
      MapManagedPolicyToRequests(namespace, before.labels) + MapManagedPolicyToRequests(namespace, after.labels)
    case Deleted(np) => MapManagedPolicyToRequests(namespace, np.labels)
  }

  /** A policy whose deletion the controller notices: managed, of a known hop. */
  predicate Noticed(labels: Labels) {
    && IsManagedPolicy(labels)
    && (Lookup(labels, LABEL_HOP) == HOP_PROXY_INGRESS || Lookup(labels, LABEL_HOP) == HOP_PROXY_EGRESS)
  }

  /** Which policy notifications wake a namespace, with labels written out: the object
      is managed by gardener and has a hop, and its hop or the one before the update is
      one of the two. */
  lemma WhatWakes(namespace: string, n: Notification<Stored>, labels: Labels)
    requires labels == match n case Created(np) => np.labels case Updated(_, np) => np.labels case Deleted(np) => np.labels
    ensures PolicyRequests(namespace, n) <= {namespace}
    ensures namespace in PolicyRequests(namespace, n) <==>
            && Lookup(labels, "app.kubernetes.io/managed-by") == "gardener"
            && Lookup(labels, "envoy-gateway.extensions.gardener.cloud/hop") != ""
            && (|| Lookup(labels, "envoy-gateway.extensions.gardener.cloud/hop") in {"proxy-ingress", "proxy-egress"}
                || (n.Updated? &&
                    Lookup(n.objectOld.labels, "envoy-gateway.extensions.gardener.cloud/hop") in {"proxy-ingress", "proxy-egress"}))
  {
  }

  /** A Gateway notification wakes its namespace exactly if the Gateway, after an update
      the new one, is of the extension's class. */
  lemma WhichGatewaysWake(namespace: string, n: Notification<Gateway>, gw: Gateway)
    requires gw == match n case Created(g) => g case Updated(_, g) => g case Deleted(g) => g
    ensures GatewayRequests(namespace, n) == if gw.className == "gardener-envoy-gateway" then {namespace} else {}
  {
  }

  /** Everything the controller writes is a policy it reacts to. */
  lemma DesiredIsNoticed(namespace: string, hop: Hop)
    ensures Noticed(Desired(namespace, hop).labels)
  {
  }
}
