/** Kubernetes API values shared by every other module: object keys, labels,
    label selectors, and the network policy object with its specification. */
module Kube {

  datatype Option<+T> = None | Some(value: T)

  type Labels = map<string, string>

  /** Identity of a namespaced object within its kind. */
  datatype Key = Key(namespace: string, name: string)

  /** Reading an absent key of a Go string map yields the empty string. */
  function Lookup(labels: Labels, key: string): string {
    if key in labels then labels[key] else ""
  }

  datatype Requirement =
    | In(key: string, values: set<string>)
    | NotIn(key: string, values: set<string>)
    | Exists(key: string)
    | DoesNotExist(key: string)

  datatype Selector = Selector(matchLabels: Labels, matchExpressions: seq<Requirement>)

  const EVERYTHING := Selector(map[], [])

  function ByLabels(labels: Labels): Selector {
    Selector(labels, [])
  }

  predicate Meets(r: Requirement, labels: Labels) {
    match r
    case In(k, vs) => k in labels && labels[k] in vs
    case NotIn(k, vs) => k in labels ==> labels[k] !in vs
    case Exists(k) => k in labels
    case DoesNotExist(k) => k !in labels
  }

  predicate Selects(s: Selector, labels: Labels) {
    && (forall k :: k in s.matchLabels ==> k in labels && labels[k] == s.matchLabels[k])
    && (forall i :: 0 <= i < |s.matchExpressions| ==> Meets(s.matchExpressions[i], labels))
  }

  datatype Protocol = TCP | UDP | SCTP

  datatype PortMatch =
    | AnyPort
    | Port(number: int)
    | PortRange(first: int, last: int)
    | NamedPort(name: string)

  datatype PolicyPort = PolicyPort(protocol: Protocol, port: PortMatch)

  /** A CIDR block, given by the address interval it denotes. */
  datatype Cidr = Cidr(first: int, last: int)

  datatype Peer =
    | IPBlock(cidr: Cidr, except: seq<Cidr>)
    | Pods(namespaceSelector: Option<Selector>, podSelector: Option<Selector>)

  /** An ingress or an egress rule: no peers means any peer, no ports any port. */
  datatype Rule = Rule(peers: seq<Peer>, ports: seq<PolicyPort>)

  datatype Direction = Ingress | Egress

  datatype PolicySpec = PolicySpec(
    podSelector: Selector,
    policyTypes: set<Direction>,
    ingress: seq<Rule>,
    egress: seq<Rule>)

  /** A network policy as code builds it, before the API server stores it. */
  datatype NetworkPolicy = NetworkPolicy(
    namespace: string,
    name: string,
    labels: Labels,
    spec: PolicySpec)
  {
    function ObjectKey(): Key {
      Key(namespace, name)
    }
  }
}
