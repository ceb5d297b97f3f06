/** The meaning of a set of network policies, following "The two sorts of pod
    isolation" of the Kubernetes Network Policies documentation: a pod that no
    policy isolates in a direction is open in that direction; an isolated pod
    admits exactly what some policy selecting it allows. */
module Evaluator {
  import opened Kube

  datatype Endpoint =
    | Pod(namespace: string, namespaceLabels: Labels, labels: Labels, address: int,
          namedPorts: map<(string, Protocol), int>)
    | Outside(address: int)

  /** A connection attempt, by protocol and destination port. */
  datatype Connection = Connection(protocol: Protocol, port: int)

  type Policies = map<Key, PolicySpec>

  predicate InCidr(c: Cidr, address: int) {
    c.first <= address <= c.last
  }

  /** Whether a peer of a policy living in `home` matches the endpoint. */
  predicate PeerMatches(p: Peer, home: string, e: Endpoint) {
    match p
    case IPBlock(cidr, except) =>
      InCidr(cidr, e.address) && forall i :: 0 <= i < |except| ==> !InCidr(except[i], e.address)
    case Pods(nsSelector, podSelector) =>
      && e.Pod?
      && (if nsSelector.Some? then Selects(nsSelector.value, e.namespaceLabels) else e.namespace == home)
      && (podSelector.Some? ==> Selects(podSelector.value, e.labels))
  }

  /** Whether a port entry matches the connection into `destination`. */
  predicate PortMatches(p: PolicyPort, destination: Endpoint, c: Connection) {
    && p.protocol == c.protocol
    && match p.port
       case AnyPort => true
       case Port(n) => c.port == n
       case PortRange(first, last) => first <= c.port <= last
       case NamedPort(name) =>
         destination.Pod? && (name, c.protocol) in destination.namedPorts
         && destination.namedPorts[(name, c.protocol)] == c.port
  }

  predicate RuleAllows(r: Rule, home: string, peer: Endpoint, destination: Endpoint, c: Connection) {
    && (r.peers == [] || exists i :: 0 <= i < |r.peers| && PeerMatches(r.peers[i], home, peer))
    && (r.ports == [] || exists i :: 0 <= i < |r.ports| && PortMatches(r.ports[i], destination, c))
  }

  function RulesOf(s: PolicySpec, d: Direction): seq<Rule> {
    match d case Ingress => s.ingress case Egress => s.egress
  }

  /** Whether the policy stored at `k` isolates the pod in the direction. */
  predicate Isolates(k: Key, s: PolicySpec, pod: Endpoint, d: Direction) {
    pod.Pod? && k.namespace == pod.namespace && d in s.policyTypes && Selects(s.podSelector, pod.labels)
  }

  ghost predicate Isolated(ps: Policies, pod: Endpoint, d: Direction) {
    exists k :: k in ps && Isolates(k, ps[k], pod, d)
  }

  /** The endpoint whose ports a connection on `pod` in direction `d` targets. */
  function Destination(pod: Endpoint, peer: Endpoint, d: Direction): Endpoint {
    match d case Ingress => pod case Egress => peer
  }

  predicate PolicyAllows(k: Key, s: PolicySpec, pod: Endpoint, d: Direction, peer: Endpoint, c: Connection) {
    && Isolates(k, s, pod, d)
    && exists i :: 0 <= i < |RulesOf(s, d)| && RuleAllows(RulesOf(s, d)[i], k.namespace, peer, Destination(pod, peer, d), c)
  }

  /** Some policy selecting the pod allows the connection. */
  ghost predicate Granted(ps: Policies, pod: Endpoint, d: Direction, peer: Endpoint, c: Connection) {
    exists k :: k in ps && PolicyAllows(k, ps[k], pod, d, peer, c)
  }

  /** The pod's side of a connection is open. */
  ghost predicate Admits(ps: Policies, pod: Endpoint, d: Direction, peer: Endpoint, c: Connection) {
    !Isolated(ps, pod, d) || Granted(ps, pod, d, peer, c)
  }

  /** A connection needs the source's egress and the destination's ingress. */
  ghost predicate Reachable(ps: Policies, source: Endpoint, destination: Endpoint, c: Connection) {
    && (source.Pod? ==> Admits(ps, source, Egress, destination, c))
    && (destination.Pod? ==> Admits(ps, destination, Ingress, source, c))
  }
}
