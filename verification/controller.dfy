/** The data-plane policy controller as a step system. One state holds the API
    server, the two informers, the work queue and the single worker; one action
    is one external change, one event delivery, one API call of a reconcile, or
    a restart of the controller. */
module Controller {
  import opened Kube
  import opened DataPlane
  import opened Informers
  import opened Watches

  /** Program counter of the worker: the next API call of the reconcile. */
  datatype Worker =
    | Idle
    | Listing(namespace: string)
    | Reading(namespace: string, hop: Hop)
    | Writing(namespace: string, hop: Hop, basis: Option<Stored>)
    | Deleting(namespace: string, hop: Hop)

  datatype State = State(
    gateways: map<Key, Gateway>,
    policies: map<Key, Stored>,
    revisions: seq<(Key, Stored)>,  // every policy version ever stored, by resource version
    gatewayInformer: Informer<Gateway>,
    policyInformer: Informer<Stored>,
    queue: set<string>,
    worker: Worker)

  /** How an API call ends: answered; failed before it took effect; took effect
      but the answer was lost. */
  datatype Outcome = Answered | Lost | Unacknowledged

  datatype Action =
    | PutGateway(key: Key, gateway: Gateway)
    | RemoveGateway(key: Key)
    | PutPolicy(key: Key, labels: Labels, spec: PolicySpec, annotations: Labels)
    | RemovePolicy(key: Key)
    | DeliverGateway
    | DeliverPolicy
    | Begin(namespace: string)
    | Call(outcome: Outcome)
    | Restart(gatewayListing: seq<Event<Gateway>>, policyListing: seq<Event<Stored>>)

  predicate External(a: Action) {
    a.PutGateway? || a.RemoveGateway? || a.PutPolicy? || a.RemovePolicy?
  }

  /** The namespace holds a Gateway of this extension's class. */
  predicate Wanted(gateways: map<Key, Gateway>, namespace: string) {
    exists k :: k in gateways && k.namespace == namespace && IsManagedGateway(gateways[k])
  }

  predicate InSync(p: Stored, want: NetworkPolicy) {
    p.labels == want.labels && p.spec == want.spec
  }

  // ---- The API server ----

  function StorePolicy(s: State, k: Key, labels: Labels, spec: PolicySpec, annotations: Labels): State {
    var p := Stored(labels, spec, annotations, |s.revisions|);
    s.(policies := s.policies[k := p],
       revisions := s.revisions + [(k, p)],
       policyInformer := s.policyInformer.Push(Put(k, p)))
  }

  function DropPolicy(s: State, k: Key): State {
    if k in s.policies then
      s.(policies := s.policies - {k}, policyInformer := s.policyInformer.Push(Gone(k)))
    else s
  }

  // ---- Delivery of watch events ----

  /** Namespaces a Gateway event adds to the queue, given the cache it meets. */
  function GatewayWakes(cache: map<Key, Gateway>, e: Event<Gateway>): set<string> {
    match e
    case Put(k, gw) =>
      GatewayRequests(k.namespace, if k in cache then Updated(cache[k], gw) else Created(gw))
    case Gone(k) =>
      if k in cache then GatewayRequests(k.namespace, Deleted(cache[k])) else {}
  }

  function PolicyWakes(cache: map<Key, Stored>, e: Event<Stored>): set<string> {
    match e
    case Put(k, np) =>
      PolicyRequests(k.namespace, if k in cache then Updated(cache[k], np) else Created(np))
    case Gone(k) =>
      if k in cache then PolicyRequests(k.namespace, Deleted(cache[k])) else {}
  }

  // ---- The reconcile of one namespace, call by call ----

  /** A failed reconcile puts its namespace back into the queue. */
  function Requeue(s: State): State
    requires !s.worker.Idle?
  {
    s.(queue := s.queue + {s.worker.namespace}, worker := Idle)
  }

  /** The worker moves on to the second policy, or ends the reconcile. */
  function Advance(s: State): State
    requires s.worker.Reading? || s.worker.Writing? || s.worker.Deleting?
  {
    s.(worker :=
       if s.worker.hop.ProxyEgress? then Idle
       else if s.worker.Deleting? then Deleting(s.worker.namespace, ProxyEgress)
       else Reading(s.worker.namespace, ProxyEgress))
  }

  /** The key of the policy the worker is at. */
  function Target(w: Worker): Key
    requires w.Reading? || w.Writing? || w.Deleting?
  {
    Key(w.namespace, PolicyName(w.hop))
  }

  /** The API server rejects the pending write: a create of a name that exists,
      or an update of an object that is gone or has another version. */
  predicate Refused(s: State)
    requires s.worker.Writing?
  {
    match s.worker.basis
    case None => Target(s.worker) in s.policies
    case Some(b) =>
      Target(s.worker) !in s.policies || s.policies[Target(s.worker)].resourceVersion != b.resourceVersion
  }

  /** What the worker's call does to the API server. */
  function Effect(s: State): State {
    match s.worker
    case Writing(ns, hop, basis) =>
      if Refused(s) then s else
      var want := Desired(ns, hop);
      StorePolicy(s, Target(s.worker), want.labels, want.spec,
                  if basis.Some? then basis.value.annotations else map[])
    case Deleting(_, _) => DropPolicy(s, Target(s.worker))
    case _ => s
  }

  /** The worker's call, answered. */
  function Answer(s: State): State
    requires !s.worker.Idle?
  {
    match s.worker
    case Listing(ns) =>
      s.(worker := if Wanted(s.gatewayInformer.cache, ns) then Reading(ns, ProxyIngress)
                   else Deleting(ns, ProxyIngress))
    case Reading(ns, hop) =>
      var cache := s.policyInformer.cache;
      if Target(s.worker) !in cache then s.(worker := Writing(ns, hop, None))
      else if InSync(cache[Target(s.worker)], Desired(ns, hop)) then Advance(s)
      else s.(worker := Writing(ns, hop, Some(cache[Target(s.worker)])))
    case Writing(_, _, _) => if Refused(s) then Requeue(s) else Advance(Effect(s))
    case Deleting(_, _) => Advance(Effect(s))
  }

  /** The effect of a call is on the policies of the server: none, or one event. */
  lemma EffectFrame(s: State)
    ensures var e := Effect(s);
            && e == s.(policies := e.policies, revisions := e.revisions, policyInformer := e.policyInformer)
            && (e == s || exists v :: e.policies == Apply(s.policies, v) && e.policyInformer == s.policyInformer.Push(v))
  {
  }

  /** An answered call changes the server as its effect does, and otherwise at
      most requeues the namespace and moves the worker. */
  lemma AnswerIsEffect(s: State)
    requires !s.worker.Idle?
    ensures var t := Answer(s);
            && t == Effect(s).(queue := t.queue, worker := t.worker)
            && t.queue <= s.queue + {s.worker.namespace}
            && (!t.worker.Idle? ==> t.worker.namespace == s.worker.namespace)
  {
  }

  // ---- Steps ----

  predicate Enabled(s: State, a: Action) {
    match a
    case PutGateway(_, _) => true
    case RemoveGateway(k) => k in s.gateways
    case PutPolicy(_, _, _, _) => true
    case RemovePolicy(k) => k in s.policies
    case DeliverGateway => s.gatewayInformer.pending != []
    case DeliverPolicy => s.policyInformer.pending != []
    // Workers start once both caches hold the initial listing.
    case Begin(ns) =>
      s.worker.Idle? && ns in s.queue && s.gatewayInformer.replaying == 0 && s.policyInformer.replaying == 0
    case Call(_) => !s.worker.Idle?
    case Restart(gs, ps) => IsListing(s.gateways, gs) && IsListing(s.policies, ps)
  }

  function Do(s: State, a: Action): State
    requires Enabled(s, a)
  {
    match a
    case PutGateway(k, gw) =>
      s.(gateways := s.gateways[k := gw], gatewayInformer := s.gatewayInformer.Push(Put(k, gw)))
    case RemoveGateway(k) =>
      s.(gateways := s.gateways - {k}, gatewayInformer := s.gatewayInformer.Push(Gone(k)))
    case PutPolicy(k, labels, spec, annotations) => StorePolicy(s, k, labels, spec, annotations)
    case RemovePolicy(k) => DropPolicy(s, k)
    case DeliverGateway =>
      s.(gatewayInformer := s.gatewayInformer.Deliver(),
         queue := s.queue + GatewayWakes(s.gatewayInformer.cache, s.gatewayInformer.pending[0]))
    case DeliverPolicy =>
      s.(policyInformer := s.policyInformer.Deliver(),
         queue := s.queue + PolicyWakes(s.policyInformer.cache, s.policyInformer.pending[0]))
    case Begin(ns) => s.(queue := s.queue - {ns}, worker := Listing(ns))
    case Call(outcome) =>
      (match outcome
       case Answered => Answer(s)
       case Lost => Requeue(s)
       case Unacknowledged => Requeue(Effect(s)))
    case Restart(gs, ps) =>
      s.(gatewayInformer := Informer(map[], gs, |gs|),
         policyInformer := Informer(map[], ps, |ps|),
         queue := {}, worker := Idle)
  }

  /** An action that is not enabled does nothing. */
  function Act(s: State, a: Action): State {
    if Enabled(s, a) then Do(s, a) else s
  }

  function Run(s: State, actions: seq<Action>): State
    decreases |actions|
  {
    if actions == [] then s else Run(Act(s, actions[0]), actions[1..])
  }

  lemma {:induction false} RunConcat(s: State, first: seq<Action>, second: seq<Action>)
    ensures Run(s, first + second) == Run(Run(s, first), second)
    decreases |first|
  {
    if first == [] {
      assert first + second == second;
    } else {
      assert (first + second)[1..] == first[1..] + second;
      RunConcat(Act(s, first[0]), first[1..], second);
    }
  }

  /** A run along a chain of enabled steps visits the states of the chain. */
  lemma {:induction false} RunVisits(actions: seq<Action>, states: seq<State>, i: nat)
    requires |states| == |actions| + 1 && i <= |actions|
    requires forall j :: 0 <= j < |actions| ==> Enabled(states[j], actions[j]) && states[j + 1] == Do(states[j], actions[j])
    ensures Run(states[i], actions[i..]) == states[|actions|]
    decreases |actions| - i
  {
    if i < |actions| {
      assert actions[i..][1..] == actions[i + 1..];
      RunVisits(actions, states, i + 1);
    }
  }

  /** However a call ends, the server is as before or as its effect leaves it. */
  lemma CallFrame(s: State, outcome: Outcome)
    requires !s.worker.Idle?
    ensures var t := Do(s, Call(outcome));
            && (t == Effect(s).(queue := t.queue, worker := t.worker) || t == s.(queue := t.queue, worker := t.worker))
            && t.queue <= s.queue + {s.worker.namespace}
            && (!t.worker.Idle? ==> t.worker.namespace == s.worker.namespace)
            && t.gateways == s.gateways && t.gatewayInformer == s.gatewayInformer
  {
    EffectFrame(s);
    AnswerIsEffect(s);
  }

  /** Nothing is undelivered, queued or in progress. */
  predicate Quiescent(s: State) {
    s.gatewayInformer.pending == [] && s.policyInformer.pending == [] && s.queue == {} && s.worker.Idle?
  }
}
