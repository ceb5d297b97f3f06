/** From Gateways to traffic: the controller's runs read through the meaning of
    the policies they leave on the API server. */
module EndToEnd {
  import opened Kube
  import opened Constants
  import opened DataPlane
  import opened Evaluator
  import opened Connectivity
  import opened Watches
  import opened Controller
  import opened ControllerSafety
  import opened ControllerTermination
  import opened ControllerNecessity
  import opened ControllerHistory

  /** The policies of the API server, as the network plugin reads them. */
  function Specs(policies: map<Key, Stored>): Policies {
    map k | k in policies :: policies[k].spec
  }

  /** After every visible run that comes to rest, with the control-plane policy
      delivered, the proxies of every namespace holding a managed Gateway reach
      every control-plane pod on the xDS port, whatever other policies exist. */
  lemma ProxiesBoot(s: State, actions: seq<Action>, ns: string, proxy: Endpoint, controlPlane: Endpoint)
    requires Healthy(s) && Visible(s, actions) && Quiescent(Run(s, actions))
    requires var t := Run(s, actions); var want := ControlPlanePolicy();
             && Wanted(t.gateways, ns)
             && want.ObjectKey() in t.policies && t.policies[want.ObjectKey()].spec == want.spec
    requires ProxyPod(proxy, ns) && ControlPlanePod(controlPlane)
    ensures Reachable(Specs(Run(s, actions).policies), proxy, controlPlane, Connection(TCP, XDS_PORT))
  {
    var t := Run(s, actions);
    QuiescenceAgrees(s, actions, ns);
    assert HopPresent(t, ns, ProxyEgress);
    XdsReachable(Specs(t.policies), ns, proxy, controlPlane);
  }

  // ---- A Gateway comes and goes ----

  /** Only the namespace is queued, in process or mentioned by events. */
  ghost predicate Confined(s: State, ns: string) {
    && s.queue <= {ns}
    && (!s.worker.Idle? ==> s.worker.namespace == ns)
    && (forall e :: e in s.gatewayInformer.pending ==> e.key.namespace == ns)
    && (forall e :: e in s.policyInformer.pending ==> e.key.namespace == ns)
  }

  /** Its managed names hold nothing but the desired policies. */
  ghost predicate OnlyDesired(s: State, ns: string) {
    forall hop: Hop :: HopKey(ns, hop) in s.policies ==> InSync(s.policies[HopKey(ns, hop)], Desired(ns, hop))
  }

  /** The states differ at most in the namespace's two managed policies. */
  ghost predicate SameElsewhere(s: State, t: State, ns: string) {
    t.gateways == s.gateways && SamePolicies(s, t, ns)
  }

  ghost predicate SamePolicies(s: State, t: State, ns: string) {
    forall k: Key :: !(k.namespace == ns && DataPlaneKey(k)) ==>
      (k in s.policies <==> k in t.policies) && (k in s.policies ==> t.policies[k] == s.policies[k])
  }

  lemma CallStaysConfined(s: State, a: Action, ns: string)
    requires Confined(s, ns) && OnlyDesired(s, ns) && a.Call? && Enabled(s, a)
    ensures Confined(Do(s, a), ns) && OnlyDesired(Do(s, a), ns) && SameElsewhere(s, Do(s, a), ns)
  {
    CallFrame(s, a.outcome);
    EffectStaysConfined(s, ns);
    var s' := Do(s, a);
    var e := if s' == s.(queue := s'.queue, worker := s'.worker) then s else Effect(s);
    assert s'.policies == e.policies && s'.gateways == e.gateways;
    assert s'.policyInformer == e.policyInformer && s'.gatewayInformer == e.gatewayInformer;
  }

  lemma EffectStaysConfined(s: State, ns: string)
    requires Confined(s, ns) && OnlyDesired(s, ns) && !s.worker.Idle?
    ensures Confined(Effect(s), ns) && OnlyDesired(Effect(s), ns) && SameElsewhere(s, Effect(s), ns)
  {
    var s' := Effect(s);
    EffectFrame(s);
    assert s'.policyInformer.pending == s.policyInformer.pending ||
           s'.policyInformer.pending == s.policyInformer.pending + [s'.policyInformer.pending[|s.policyInformer.pending|]];
    if s'.policyInformer.pending != s.policyInformer.pending {
      EffectEvent(s);
    }
    forall k: Key
      ensures !(k.namespace == ns && DataPlaneKey(k)) ==>
                (k in s.policies <==> k in s'.policies) && (k in s.policies ==> s'.policies[k] == s.policies[k])
      ensures k in s'.policies && (k !in s.policies || s'.policies[k] != s.policies[k]) ==>
                s.worker.Writing? && k == Target(s.worker) && InSync(s'.policies[k], Desired(ns, s.worker.hop))
    {
      EffectChanges(s, k);
    }
  }

  lemma EffectEvent(s: State)
    requires Effect(s).policyInformer.pending != s.policyInformer.pending
    ensures (s.worker.Writing? || s.worker.Deleting?) &&
            exists v :: Effect(s).policyInformer.pending == s.policyInformer.pending + [v] && v.key == Target(s.worker)
  {
  }

  lemma DeliveryStaysConfined(s: State, a: Action, ns: string)
    requires Confined(s, ns) && OnlyDesired(s, ns) && (a.DeliverGateway? || a.DeliverPolicy?) && Enabled(s, a)
    ensures Confined(Do(s, a), ns) && OnlyDesired(Do(s, a), ns) && SameElsewhere(s, Do(s, a), ns)
  {
  }

  lemma {:induction false} RunStaysConfined(s: State, actions: seq<Action>, ns: string)
    requires Confined(s, ns) && OnlyDesired(s, ns)
    requires forall i :: 0 <= i < |actions| ==> Internal(actions[i])
    ensures Confined(Run(s, actions), ns) && OnlyDesired(Run(s, actions), ns)
    ensures SameElsewhere(s, Run(s, actions), ns)
    decreases |actions|
  {
    if actions != [] {
      var a := actions[0];
      if Enabled(s, a) {
        if a.Call? { CallStaysConfined(s, a, ns); }
        else if !a.Begin? { DeliveryStaysConfined(s, a, ns); }
      }
      RunStaysConfined(Act(s, a), actions[1..], ns);
    }
  }

  /** The controller's own steps, from a state where only the namespace is in
      flight until rest. */
  lemma RestOutcome(s: State, actions: seq<Action>, ns: string)
    requires Healthy(s) && Confined(s, ns) && OnlyDesired(s, ns)
    requires (forall i :: 0 <= i < |actions| ==> Internal(actions[i])) && Quiescent(Run(s, actions))
    ensures var t := Run(s, actions);
            && Healthy(t) && OnlyDesired(t, ns) && SameElsewhere(s, t, ns)
            && forall hop: Hop :: HopKey(ns, hop) in t.policies <==> Wanted(t.gateways, ns)
  {
    InternalRunsAreVisible(s, actions);
    RunKeepsHealthy(s, actions);
    QuiescenceAgrees(s, actions, ns);
    RunStaysConfined(s, actions, ns);
    DesiredIsNoticed(ns, ProxyIngress);
    DesiredIsNoticed(ns, ProxyEgress);
    assert HopKey(ns, ProxyIngress) in Run(s, actions).policies <==> Wanted(Run(s, actions).gateways, ns);
    assert HopKey(ns, ProxyEgress) in Run(s, actions).policies <==> Wanted(Run(s, actions).gateways, ns);
  }

  lemma EditIsConfined(s: State, edit: Action, ns: string)
    requires Healthy(s) && Quiescent(s) && OnlyDesired(s, ns)
    requires (edit.PutGateway? || edit.RemoveGateway?) && edit.key.namespace == ns
    requires Enabled(s, edit) && !Silent(s, edit)
    ensures Healthy(Do(s, edit)) && Confined(Do(s, edit), ns) && OnlyDesired(Do(s, edit), ns)
    ensures Do(s, edit).policies == s.policies
  {
    RunKeepsHealthy(s, [edit]);
    assert Run(s, [edit]) == Do(s, edit) by { assert [edit][1..] == []; }
  }

  lemma GatewayComes(s: State, k: Key, gw: Gateway, s1: State, up: seq<Action>)
    requires Healthy(s) && Quiescent(s) && IsManagedGateway(gw)
    requires forall hop: Hop :: HopKey(k.namespace, hop) !in s.policies
    requires s1 == Do(s, PutGateway(k, gw))
    requires (forall i :: 0 <= i < |up| ==> Internal(up[i])) && Quiescent(Run(s1, up))
    ensures Healthy(Run(s1, up)) && Run(s1, up).gateways == s.gateways[k := gw]
    ensures SamePolicies(s, Run(s1, up), k.namespace)
    ensures OnlyDesired(Run(s1, up), k.namespace) && forall hop: Hop :: HopKey(k.namespace, hop) in Run(s1, up).policies
  {
    assert OnlyDesired(s, k.namespace);
    EditIsConfined(s, PutGateway(k, gw), k.namespace);
    RestOutcome(s1, up, k.namespace);
    assert s1.gateways[k] == gw;
    assert Wanted(s1.gateways, k.namespace);
  }

  lemma GatewayGoes(t: State, k: Key, t1: State, down: seq<Action>)
    requires Healthy(t) && Quiescent(t) && OnlyDesired(t, k.namespace)
    requires k in t.gateways && !Wanted(t.gateways - {k}, k.namespace)
    requires t1 == Do(t, RemoveGateway(k))
    requires (forall i :: 0 <= i < |down| ==> Internal(down[i])) && Quiescent(Run(t1, down))
    ensures SamePolicies(t, Run(t1, down), k.namespace)
    ensures forall hop: Hop :: HopKey(k.namespace, hop) !in Run(t1, down).policies
  {
    EditIsConfined(t, RemoveGateway(k), k.namespace);
    RestOutcome(t1, down, k.namespace);
  }

  /** A Gateway comes and goes. The first managed Gateway of a namespace adds
      exactly the two managed policies to the cluster, and removing it again
      restores the earlier policies, and so the earlier traffic, exactly. */
  lemma GatewayComesAndGoes(s: State, k: Key, gw: Gateway, up: seq<Action>, t: State, down: seq<Action>, u: State)
    requires Healthy(s) && Quiescent(s) && IsManagedGateway(gw) && k !in s.gateways
    requires !Wanted(s.gateways, k.namespace)
    requires forall hop: Hop :: HopKey(k.namespace, hop) !in s.policies
    requires forall i :: 0 <= i < |up| ==> Internal(up[i])
    requires forall i :: 0 <= i < |down| ==> Internal(down[i])
    requires t == Run(Act(s, PutGateway(k, gw)), up) && Quiescent(t)
    requires u == Run(Act(t, RemoveGateway(k)), down) && Quiescent(u)
    ensures Specs(t.policies) == WithManaged(Specs(s.policies), k.namespace)
    ensures u.policies == s.policies
  {
    GatewayComes(s, k, gw, Do(s, PutGateway(k, gw)), up);
    SpecsAfterUp(s, t, k.namespace);
    assert t.gateways - {k} == s.gateways;
    GatewayGoes(t, k, Do(t, RemoveGateway(k)), down);
    BackToStart(s, t, u, k.namespace);
  }

  /** Two changes confined to the namespace's managed names, which are free
      before and after, cancel out. */
  lemma BackToStart(s: State, t: State, u: State, ns: string)
    requires SamePolicies(s, t, ns) && SamePolicies(t, u, ns)
    requires forall hop: Hop :: HopKey(ns, hop) !in s.policies && HopKey(ns, hop) !in u.policies
    ensures u.policies == s.policies
  {
    forall j: Key
      ensures (j in u.policies <==> j in s.policies) && (j in s.policies ==> u.policies[j] == s.policies[j])
    {
      if j.namespace == ns && DataPlaneKey(j) {
        var hop := if j.name == PolicyName(ProxyIngress) then ProxyIngress else ProxyEgress;
        assert j == HopKey(ns, hop);
      }
    }
  }

  lemma SpecsAfterUp(s: State, t: State, ns: string)
    requires SamePolicies(s, t, ns)
    requires OnlyDesired(t, ns) && forall hop: Hop :: HopKey(ns, hop) in t.policies
    ensures Specs(t.policies) == WithManaged(Specs(s.policies), ns)
  {
  }
}
