/** The visibility hypothesis is exact: an edit of a system at rest is repaired
    by the controller if and only if the watches can see it. */
module ControllerNecessity {
  import opened Kube
  import opened DataPlane
  import opened Informers
  import opened Watches
  import opened Controller
  import opened ControllerSafety
  import opened ControllerTermination

  /** The event an edit leaves, delivered at once. */
  function Delivery(a: Action): Action
    requires External(a)
  {
    if a.PutGateway? || a.RemoveGateway? then DeliverGateway else DeliverPolicy
  }

  /** Re-classing away the last managed Gateway of a namespace leaves both its
      policies behind, and nothing in flight. */
  lemma ReclassLeavesPolicies(s: State, k: Key, gw: Gateway)
    requires Healthy(s) && Quiescent(s) && SilentGatewayEdit(s.gateways, k, gw)
    ensures var t := Run(s, [PutGateway(k, gw), DeliverGateway]);
            Quiescent(t) && !Agrees(t, k.namespace)
  {
    assert Accounted(s, k.namespace);
    var a := PutGateway(k, gw);
    var s1 := Do(s, a);
    assert s1.gatewayInformer.pending == [Put(k, gw)];
    assert s.gatewayInformer.cache == s.gateways;
    RunVisits([a, DeliverGateway], [s, s1, Do(s1, DeliverGateway)], 0);
    assert [a, DeliverGateway][0..] == [a, DeliverGateway];
    DesiredIsNoticed(k.namespace, ProxyIngress);
  }

  /** The delivery of an event that the watches filter out. */
  lemma FilteredDelivery(s: State, e: Event<Stored>)
    requires s.worker.Idle? && s.queue == {} && s.gatewayInformer.pending == []
    requires s.policyInformer.pending == [e] && PolicyWakes(s.policyInformer.cache, e) == {}
    ensures var t := Do(s, DeliverPolicy);
            Quiescent(t) && t.policies == s.policies && t.gateways == s.gateways
  {
  }

  /** Taking the managed labels off a data-plane policy leaves it edited, and
      nothing in flight. */
  lemma UnlabellingStays(s: State, k: Key, labels: Labels, spec: PolicySpec, annotations: Labels)
    requires Healthy(s) && Quiescent(s) && SilentPolicyEdit(s.policies, k, labels)
    ensures var t := Run(s, [PutPolicy(k, labels, spec, annotations), DeliverPolicy]);
            Quiescent(t) && !Agrees(t, k.namespace)
  {
    assert Accounted(s, k.namespace);
    assert Wanted(s.gateways, k.namespace);
    var hop := if k.name == PolicyName(ProxyIngress) then ProxyIngress else ProxyEgress;
    DesiredIsNoticed(k.namespace, hop);
    var a := PutPolicy(k, labels, spec, annotations);
    var s1 := Do(s, a);
    FilteredDelivery(s1, Put(k, s1.policies[k]));
    var t := Do(s1, DeliverPolicy);
    RunVisits([a, DeliverPolicy], [s, s1, t], 0);
    assert [a, DeliverPolicy][0..] == [a, DeliverPolicy];
    assert !HopPresent(t, k.namespace, hop);
  }

  lemma {:induction false} InternalRunsAreVisible(s: State, actions: seq<Action>)
    requires forall i :: 0 <= i < |actions| ==> Internal(actions[i])
    ensures Visible(s, actions)
    decreases |actions|
  {
    if actions != [] {
      InternalRunsAreVisible(Act(s, actions[0]), actions[1..]);
    }
  }

  /** The controller repairs the edit: however its own steps are scheduled, and
      whichever calls fail, it comes to rest only with every namespace in
      agreement. */
  ghost predicate Repaired(s: State, a: Action)
    requires Enabled(s, a)
  {
    forall actions: seq<Action>, ns: string ::
      (forall i :: 0 <= i < |actions| ==> Internal(actions[i])) && Quiescent(Run(Do(s, a), actions))
      ==> Agrees(Run(Do(s, a), actions), ns)
  }

  /** An edit of a system at rest is repaired if and only if it is visible. */
  lemma RepairedIffVisible(s: State, a: Action)
    requires Healthy(s) && Quiescent(s) && External(a) && Enabled(s, a)
    ensures Repaired(s, a) <==> !Silent(s, a)
  {
    var s1 := Do(s, a);
    if Silent(s, a) {
      var last := Delivery(a);
      assert [a, last][1..] == [last];
      assert Run(s, [a, last]) == Run(s1, [last]);
      if a.PutGateway? {
        ReclassLeavesPolicies(s, a.key, a.gateway);
      } else {
        UnlabellingStays(s, a.key, a.labels, a.spec, a.annotations);
      }
      assert forall i :: 0 <= i < |[last]| ==> Internal([last][i]);
      assert !Agrees(Run(s1, [last]), a.key.namespace);
    } else {
      RunKeepsHealthy(s, [a]);
      assert Run(s, [a]) == s1 by { assert [a][1..] == []; }
      forall actions: seq<Action>, ns: string |
        (forall i :: 0 <= i < |actions| ==> Internal(actions[i])) && Quiescent(Run(s1, actions))
        ensures Agrees(Run(s1, actions), ns)
      {
        InternalRunsAreVisible(s1, actions);
        QuiescenceAgrees(s1, actions, ns);
      }
    }
  }

  /** With both policies in sync in the cache, a reconcile ends without a write. */
  lemma CleanReconcile(s: State, ns: string)
    requires s.worker.Idle? && ns in s.queue
    requires s.gatewayInformer.replaying == 0 && s.policyInformer.replaying == 0
    requires Wanted(s.gatewayInformer.cache, ns)
    requires forall hop: Hop :: Key(ns, PolicyName(hop)) in s.policyInformer.cache &&
               InSync(s.policyInformer.cache[Key(ns, PolicyName(hop))], Desired(ns, hop))
    ensures Run(s, [Begin(ns), Call(Answered), Call(Answered), Call(Answered)]) == s.(queue := s.queue - {ns})
  {
    var actions := [Begin(ns), Call(Answered), Call(Answered), Call(Answered)];
    var t := s.(queue := s.queue - {ns});
    var s1 := t.(worker := Listing(ns));
    var s2 := t.(worker := Reading(ns, ProxyIngress));
    var s3 := t.(worker := Reading(ns, ProxyEgress));
    assert Answer(s1) == s2 && Answer(s2) == s3 && Answer(s3) == t;
    RunVisits(actions, [s, s1, s2, s3, t], 0);
    assert actions[0..] == actions;
  }

  /** A reconcile whose cache lags behind an unlabelling of the first policy
      skips both policies, and the late event wakes nobody. */
  lemma StaleSkip(s: State, ns: string)
    requires s.worker.Idle? && s.queue == {ns} && s.gatewayInformer.pending == []
    requires s.gatewayInformer.replaying == 0 && s.policyInformer.replaying == 0
    requires Wanted(s.gatewayInformer.cache, ns)
    requires forall hop: Hop :: Key(ns, PolicyName(hop)) in s.policyInformer.cache &&
               InSync(s.policyInformer.cache[Key(ns, PolicyName(hop))], Desired(ns, hop))
    requires |s.policyInformer.pending| == 1 && s.policyInformer.pending[0].Put?
    requires !IsManagedPolicy(s.policyInformer.pending[0].value.labels)
    ensures var t := Run(s, [Begin(ns), Call(Answered), Call(Answered), Call(Answered)] + [DeliverPolicy]);
            Quiescent(t) && t.policies == s.policies && t.gateways == s.gateways
  {
    var actions := [Begin(ns), Call(Answered), Call(Answered), Call(Answered)];
    CleanReconcile(s, ns);
    RunConcat(s, actions, [DeliverPolicy]);
    var t := Run(s, actions);
    RunVisits([DeliverPolicy], [t, Do(t, DeliverPolicy)], 0);
    assert [DeliverPolicy][0..] == [DeliverPolicy];
  }

  /** A Gateway is removed and brought back while a policy is edited. */
  lemma BounceEdits(s: State, k: Key, p: Key, labels: Labels, spec: PolicySpec)
    requires Quiescent(s) && Following(s) && k in s.gateways
    ensures var t := Run(s, [RemoveGateway(k), PutPolicy(p, labels, spec, map[]), PutGateway(k, s.gateways[k])]);
            && t.worker.Idle? && t.queue == {}
            && t.gateways == s.gateways && t.policies == s.policies[p := Stored(labels, spec, map[], |s.revisions|)]
            && t.gatewayInformer == Informer(s.gateways, [Gone(k), Put(k, s.gateways[k])], s.gatewayInformer.replaying)
            && t.policyInformer == Informer(s.policies, [Put(p, t.policies[p])], s.policyInformer.replaying)
  {
    var gw := s.gateways[k];
    var actions := [RemoveGateway(k), PutPolicy(p, labels, spec, map[]), PutGateway(k, gw)];
    var s1 := Do(s, RemoveGateway(k));
    var s2 := StorePolicy(s1, p, labels, spec, map[]);
    var s3 := Do(s2, PutGateway(k, gw));
    assert (s.gateways - {k})[k := gw] == s.gateways;
    RunVisits(actions, [s, s1, s2, s3], 0);
    assert actions[0..] == actions;
  }

  /** The Gateway events are delivered. */
  lemma BounceDeliveries(s: State, k: Key, gw: Gateway)
    requires s.queue == {} && IsManagedGateway(gw) && k in s.gatewayInformer.cache && s.gatewayInformer.cache[k] == gw
    requires s.gatewayInformer.pending == [Gone(k), Put(k, gw)]
    ensures var t := Run(s, [DeliverGateway, DeliverGateway]);
            && t == s.(queue := {k.namespace}, gatewayInformer := t.gatewayInformer)
            && t.gatewayInformer.cache == s.gatewayInformer.cache && t.gatewayInformer.pending == []
            && t.gatewayInformer.replaying <= s.gatewayInformer.replaying
  {
  }

  /** Unlabelling is harmful even while the namespace holds no managed Gateway:
      if the Gateway is removed and brought back, a reconcile that still sees
      the old policy in its cache skips it, and the late event is filtered. */
  lemma UnlabellingWhileUnwanted(s: State, k: Key, labels: Labels, spec: PolicySpec)
    requires Healthy(s) && Sane(s) && Quiescent(s)
    requires k in s.gateways && IsManagedGateway(s.gateways[k]) && !Wanted(s.gateways - {k}, k.namespace)
    requires !IsManagedPolicy(labels)
    ensures var p := Key(k.namespace, PolicyName(ProxyIngress));
            var edits := [RemoveGateway(k), PutPolicy(p, labels, spec, map[]), PutGateway(k, s.gateways[k])];
            var steps := [DeliverGateway, DeliverGateway] +
                         ([Begin(k.namespace), Call(Answered), Call(Answered), Call(Answered)] + [DeliverPolicy]);
            && !Wanted(Act(s, edits[0]).gateways, k.namespace)
            && Quiescent(Run(s, edits + steps)) && !Agrees(Run(s, edits + steps), k.namespace)
  {
    var ns := k.namespace;
    var p := Key(ns, PolicyName(ProxyIngress));
    var edits := [RemoveGateway(k), PutPolicy(p, labels, spec, map[]), PutGateway(k, s.gateways[k])];
    var deliveries := [DeliverGateway, DeliverGateway];
    var steps := [Begin(ns), Call(Answered), Call(Answered), Call(Answered)] + [DeliverPolicy];
    assert Accounted(s, ns);
    assert forall hop: Hop :: HopPresent(s, ns, hop);
    DesiredIsNoticed(ns, ProxyIngress);
    BounceEdits(s, k, p, labels, spec);
    BounceDeliveries(Run(s, edits), k, s.gateways[k]);
    StaleSkip(Run(Run(s, edits), deliveries), ns);
    RunConcat(s, edits, deliveries + steps);
    RunConcat(Run(s, edits), deliveries, steps);
    assert !HopPresent(Run(s, edits + (deliveries + steps)), ns, ProxyIngress);
  }
}
