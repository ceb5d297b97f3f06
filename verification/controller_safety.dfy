/** Drift always leaves a signal: whatever happens to Gateways and policies, a
    namespace whose policies disagree with its Gateways is queued, in process,
    or has an undelivered event that will queue it. */
module ControllerSafety {
  import opened Kube
  import opened DataPlane
  import opened Informers
  import opened Watches
  import opened Controller

  // ---- Agreement of a namespace ----

  /** The policy of a hop is present with exactly the desired labels and spec. */
  predicate HopPresent(s: State, ns: string, hop: Hop) {
    var k := Key(ns, PolicyName(hop));
    k in s.policies && InSync(s.policies[k], Desired(ns, hop))
  }

  /** No managed policy of a known hop sits at the hop's name. */
  predicate HopAbsent(s: State, ns: string, hop: Hop) {
    var k := Key(ns, PolicyName(hop));
    k in s.policies ==> !Noticed(s.policies[k].labels)
  }

  predicate Agrees(s: State, ns: string) {
    if Wanted(s.gateways, ns) then HopPresent(s, ns, ProxyIngress) && HopPresent(s, ns, ProxyEgress)
    else HopAbsent(s, ns, ProxyIngress) && HopAbsent(s, ns, ProxyEgress)
  }

  /** Agreement, with names and label values written out. */
  lemma AgreesMeaning(s: State, ns: string)
    ensures var ingress, egress := Key(ns, "envoy-gateway-proxies"), Key(ns, "envoy-gateway-proxies-egress");
            Agrees(s, ns) <==>
            if exists k :: k in s.gateways && k.namespace == ns && s.gateways[k].className == "gardener-envoy-gateway" then
              && ingress in s.policies && InSync(s.policies[ingress], Desired(ns, ProxyIngress))
              && egress in s.policies && InSync(s.policies[egress], Desired(ns, ProxyEgress))
            else
              forall k :: k in {ingress, egress} && k in s.policies ==>
                || Lookup(s.policies[k].labels, "app.kubernetes.io/managed-by") != "gardener"
                || Lookup(s.policies[k].labels, "envoy-gateway.extensions.gardener.cloud/hop") !in {"proxy-ingress", "proxy-egress"}
  {
    assert Wanted(s.gateways, ns) <==>
           exists k :: k in s.gateways && k.namespace == ns && s.gateways[k].className == "gardener-envoy-gateway";
  }

  // ---- Signals in flight ----

  ghost predicate GatewaySignals(cache: map<Key, Gateway>, es: seq<Event<Gateway>>, ns: string)
    decreases |es|
  {
    es != [] && (ns in GatewayWakes(cache, es[0]) || GatewaySignals(Apply(cache, es[0]), es[1..], ns))
  }

  ghost predicate PolicySignals(cache: map<Key, Stored>, es: seq<Event<Stored>>, ns: string)
    decreases |es|
  {
    es != [] && (ns in PolicyWakes(cache, es[0]) || PolicySignals(Apply(cache, es[0]), es[1..], ns))
  }

  /** The namespace is queued, or an undelivered event will queue it. */
  ghost predicate Signalled(s: State, ns: string) {
    || ns in s.queue
    || GatewaySignals(s.gatewayInformer.cache, s.gatewayInformer.pending, ns)
    || PolicySignals(s.policyInformer.cache, s.policyInformer.pending, ns)
  }

  predicate InProcess(s: State, ns: string) {
    !s.worker.Idle? && s.worker.namespace == ns
  }

  // ---- Edits the watches cannot see ----

  /** Re-classing away the last managed Gateway of a namespace. */
  predicate SilentGatewayEdit(gateways: map<Key, Gateway>, k: Key, gw: Gateway) {
    && k in gateways && IsManagedGateway(gateways[k]) && !IsManagedGateway(gw)
    && !Wanted(gateways[k := gw], k.namespace)
  }

  predicate DataPlaneKey(k: Key) {
    k.name == PolicyName(ProxyIngress) || k.name == PolicyName(ProxyEgress)
  }

  /** Editing a noticed data-plane policy so that the watch filter drops it. */
  predicate SilentPolicyEdit(policies: map<Key, Stored>, k: Key, labels: Labels) {
    DataPlaneKey(k) && k in policies && Noticed(policies[k].labels) && !IsManagedPolicy(labels)
  }

  predicate Silent(s: State, a: Action) {
    match a
    case PutGateway(k, gw) => SilentGatewayEdit(s.gateways, k, gw)
    case PutPolicy(k, labels, _, _) => SilentPolicyEdit(s.policies, k, labels)
    case _ => false
  }

  /** The silent edits, with names, classes and label values written out: moving the
      only Gateway of the extension's class in a namespace to another class, and taking
      the managed-by value or the hop from one of the two policies that had a hop. */
  lemma SilentMeaning(s: State, a: Action)
    ensures a.PutGateway? ==>
              (Silent(s, a) <==>
               && a.key in s.gateways && s.gateways[a.key].className == "gardener-envoy-gateway"
               && a.gateway.className != "gardener-envoy-gateway"
               && forall j :: j in s.gateways && j != a.key && j.namespace == a.key.namespace ==>
                    s.gateways[j].className != "gardener-envoy-gateway")
    ensures a.PutPolicy? ==>
              (Silent(s, a) <==>
               && (a.key.name == "envoy-gateway-proxies" || a.key.name == "envoy-gateway-proxies-egress")
               && a.key in s.policies && var labels := s.policies[a.key].labels;
               && Lookup(labels, "app.kubernetes.io/managed-by") == "gardener"
               && Lookup(labels, "envoy-gateway.extensions.gardener.cloud/hop") in {"proxy-ingress", "proxy-egress"}
               && (|| Lookup(a.labels, "app.kubernetes.io/managed-by") != "gardener"
                   || Lookup(a.labels, "envoy-gateway.extensions.gardener.cloud/hop") == ""))
    ensures !a.PutGateway? && !a.PutPolicy? ==> !Silent(s, a)
  {
    if a.PutGateway? {
      var after := s.gateways[a.key := a.gateway];
      assert forall j :: j in s.gateways ==> j in after;
      assert forall j :: j in after && j != a.key ==> j in s.gateways && after[j] == s.gateways[j];
    }
  }

  ghost predicate LoudGateways(cache: map<Key, Gateway>, es: seq<Event<Gateway>>)
    decreases |es|
  {
    es != [] ==>
      && (es[0].Put? ==> !SilentGatewayEdit(cache, es[0].key, es[0].value))
      && LoudGateways(Apply(cache, es[0]), es[1..])
  }

  ghost predicate LoudPolicies(cache: map<Key, Stored>, es: seq<Event<Stored>>)
    decreases |es|
  {
    es != [] ==>
      && (es[0].Put? ==> !SilentPolicyEdit(cache, es[0].key, es[0].value.labels))
      && LoudPolicies(Apply(cache, es[0]), es[1..])
  }

  // ---- The invariant ----

  /** What is known of a namespace without a signal in flight. While the worker
      is at it, the decision taken from the cached Gateways is the one the
      server's Gateways demand, and the hops already passed carry it out. */
  ghost predicate Accounted(s: State, ns: string) {
    Signalled(s, ns) ||
    (if !InProcess(s, ns) then Agrees(s, ns) else
     match s.worker
     case Idle => true
     case Listing(_) => true
     case Reading(_, hop) => Wanted(s.gateways, ns) && (hop.ProxyEgress? ==> HopPresent(s, ns, ProxyIngress))
     case Writing(_, hop, _) => Wanted(s.gateways, ns) && (hop.ProxyEgress? ==> HopPresent(s, ns, ProxyIngress))
     case Deleting(_, hop) => !Wanted(s.gateways, ns) && (hop.ProxyEgress? ==> HopAbsent(s, ns, ProxyIngress)))
  }

  /** Both caches lag behind the server by their undelivered events, and none of
      those events is one the watches cannot see. */
  ghost predicate Coherent(s: State) {
    && s.gatewayInformer.Follows(s.gateways)
    && s.policyInformer.Follows(s.policies)
    && LoudGateways(s.gatewayInformer.cache, s.gatewayInformer.pending)
    && LoudPolicies(s.policyInformer.cache, s.policyInformer.pending)
  }

  ghost predicate Healthy(s: State) {
    Coherent(s) && forall ns: string :: Accounted(s, ns)
  }

  // ---- Streams ----

  lemma {:induction false} GatewayStreamAppend(cache: map<Key, Gateway>, es: seq<Event<Gateway>>, e: Event<Gateway>, ns: string)
    ensures GatewaySignals(cache, es + [e], ns) <==> GatewaySignals(cache, es, ns) || ns in GatewayWakes(Replay(cache, es), e)
    ensures LoudGateways(cache, es + [e]) <==>
            LoudGateways(cache, es) && (e.Put? ==> !SilentGatewayEdit(Replay(cache, es), e.key, e.value))
    decreases |es|
  {
    if es == [] {
      assert es + [e] == [e];
      assert [e][1..] == [];
    } else {
      assert (es + [e])[1..] == es[1..] + [e];
      GatewayStreamAppend(Apply(cache, es[0]), es[1..], e, ns);
    }
  }

  lemma {:induction false} PolicyStreamAppend(cache: map<Key, Stored>, es: seq<Event<Stored>>, e: Event<Stored>, ns: string)
    ensures PolicySignals(cache, es + [e], ns) <==> PolicySignals(cache, es, ns) || ns in PolicyWakes(Replay(cache, es), e)
    ensures LoudPolicies(cache, es + [e]) <==>
            LoudPolicies(cache, es) && (e.Put? ==> !SilentPolicyEdit(Replay(cache, es), e.key, e.value.labels))
    decreases |es|
  {
    if es == [] {
      assert es + [e] == [e];
      assert [e][1..] == [];
    } else {
      assert (es + [e])[1..] == es[1..] + [e];
      PolicyStreamAppend(Apply(cache, es[0]), es[1..], e, ns);
    }
  }

  /** One Gateway event that changes whether a namespace is wanted wakes it,
      unless it is a silent edit. */
  lemma FlipWakes(gateways: map<Key, Gateway>, e: Event<Gateway>, ns: string)
    requires Wanted(gateways, ns) != Wanted(Apply(gateways, e), ns)
    requires e.Put? ==> !SilentGatewayEdit(gateways, e.key, e.value)
    ensures ns in GatewayWakes(gateways, e)
  {
  }

  /** If the cached Gateways and the server's disagree on whether a namespace is
      wanted, an undelivered event will wake it. */
  lemma {:induction false} WantedLagSignals(cache: map<Key, Gateway>, es: seq<Event<Gateway>>, ns: string)
    requires LoudGateways(cache, es)
    requires Wanted(cache, ns) != Wanted(Replay(cache, es), ns)
    ensures GatewaySignals(cache, es, ns)
    decreases |es|
  {
    if Wanted(cache, ns) != Wanted(Apply(cache, es[0]), ns) {
      FlipWakes(cache, es[0], ns);
    } else {
      WantedLagSignals(Apply(cache, es[0]), es[1..], ns);
    }
  }

  /** If a noticed data-plane policy in the cache differs from the server's, an
      undelivered event will wake its namespace. */
  lemma {:induction false} PolicyLagSignals(cache: map<Key, Stored>, es: seq<Event<Stored>>, k: Key)
    requires LoudPolicies(cache, es)
    requires DataPlaneKey(k) && k in cache && Noticed(cache[k].labels)
    requires k !in Replay(cache, es) || Replay(cache, es)[k] != cache[k]
    ensures PolicySignals(cache, es, k.namespace)
    decreases |es|
  {
    if es[0].key != k {
      PolicyLagSignals(Apply(cache, es[0]), es[1..], k);
    }
  }

  // ---- One step ----

  /** The server applies a Gateway event and appends it to the watch stream. */
  ghost predicate GatewayChange(s: State, e: Event<Gateway>, s': State) {
    s' == s.(gateways := Apply(s.gateways, e), gatewayInformer := s.gatewayInformer.Push(e))
  }

  ghost predicate PolicyChange(s: State, e: Event<Stored>, s': State) {
    s' == s.(policies := Apply(s.policies, e), policyInformer := s.policyInformer.Push(e), revisions := s'.revisions)
  }

  lemma GatewayChangeKeeps(s: State, e: Event<Gateway>, s': State, ns: string)
    requires Coherent(s) && Accounted(s, ns) && GatewayChange(s, e, s')
    requires e.Put? ==> !SilentGatewayEdit(s.gateways, e.key, e.value)
    ensures Coherent(s') && Accounted(s', ns)
  {
    var inf := s.gatewayInformer;
    ReplayAppend(inf.cache, inf.pending, e);
    GatewayStreamAppend(inf.cache, inf.pending, e, ns);
    if Wanted(s.gateways, ns) != Wanted(s'.gateways, ns) {
      FlipWakes(s.gateways, e, ns);
    }
  }

  /** A change of a data-plane policy that breaks what a namespace relies on
      wakes the namespace, unless it is a silent edit. */
  lemma BreakWakes(s: State, e: Event<Stored>, s': State, ns: string, hop: Hop)
    requires PolicyChange(s, e, s')
    requires e.Put? ==> !SilentPolicyEdit(s.policies, e.key, e.value.labels)
    requires (HopPresent(s, ns, hop) && !HopPresent(s', ns, hop)) || (HopAbsent(s, ns, hop) && !HopAbsent(s', ns, hop))
    ensures ns in PolicyWakes(s.policies, e)
  {
  }

  lemma PolicyChangeKeeps(s: State, e: Event<Stored>, s': State, ns: string)
    requires Coherent(s) && Accounted(s, ns) && PolicyChange(s, e, s')
    requires e.Put? ==> !SilentPolicyEdit(s.policies, e.key, e.value.labels)
    ensures Coherent(s') && Accounted(s', ns)
  {
    var inf := s.policyInformer;
    ReplayAppend(inf.cache, inf.pending, e);
    PolicyStreamAppend(inf.cache, inf.pending, e, ns);
    if !Signalled(s, ns) && ns !in PolicyWakes(s.policies, e) {
      forall hop: Hop
        ensures HopPresent(s, ns, hop) ==> HopPresent(s', ns, hop)
        ensures HopAbsent(s, ns, hop) ==> HopAbsent(s', ns, hop)
      {
        if (HopPresent(s, ns, hop) && !HopPresent(s', ns, hop)) || (HopAbsent(s, ns, hop) && !HopAbsent(s', ns, hop)) {
          BreakWakes(s, e, s', ns, hop);
        }
      }
    }
  }

  lemma DeliverGatewayKeeps(s: State, ns: string)
    requires Enabled(s, DeliverGateway) && Coherent(s) && Accounted(s, ns)
    ensures Coherent(Do(s, DeliverGateway)) && Accounted(Do(s, DeliverGateway), ns)
  {
  }

  lemma DeliverPolicyKeeps(s: State, ns: string)
    requires Enabled(s, DeliverPolicy) && Coherent(s) && Accounted(s, ns)
    ensures Coherent(Do(s, DeliverPolicy)) && Accounted(Do(s, DeliverPolicy), ns)
  {
  }

  /** Listing the cached Gateways decides as the server's Gateways demand, or a
      Gateway event is still in flight. */
  lemma ListKeeps(s: State, ns: string)
    requires s.worker.Listing? && Coherent(s) && Accounted(s, ns)
    ensures Accounted(Answer(s), ns)
  {
    var inf := s.gatewayInformer;
    if s.worker.namespace == ns && Wanted(inf.cache, ns) != Wanted(s.gateways, ns) {
      WantedLagSignals(inf.cache, inf.pending, ns);
    }
  }

  /** Skipping a policy that the cache shows as desired is right for the server
      too, or a policy event is still in flight. */
  lemma ReadKeeps(s: State, ns: string)
    requires s.worker.Reading? && Coherent(s) && Accounted(s, ns)
    ensures Accounted(Answer(s), ns)
  {
    var inf := s.policyInformer;
    var k := Target(s.worker);
    if s.worker.namespace != ns {
      OtherNamespace(s, Answer(s), ns);
    } else if k in inf.cache && InSync(inf.cache[k], Desired(ns, s.worker.hop)) {
      DesiredIsNoticed(ns, s.worker.hop);
      if k !in s.policies || s.policies[k] != inf.cache[k] {
        PolicyLagSignals(inf.cache, inf.pending, k);
      }
    }
  }

  /** A write of the controller leaves its own event in flight. */
  lemma WriteKeeps(s: State, ns: string)
    requires s.worker.Writing? && !Refused(s) && Coherent(s) && Accounted(s, ns)
    ensures Coherent(Effect(s)) && Accounted(Effect(s), ns)
    ensures s.worker.namespace == ns ==> Signalled(Effect(s), ns)
  {
    var s' := Effect(s);
    var k := Target(s.worker);
    var e := Put(k, s'.policies[k]);
    DesiredIsNoticed(s.worker.namespace, s.worker.hop);
    PolicyChangeKeeps(s, e, s', ns);
    PolicyStreamAppend(s.policyInformer.cache, s.policyInformer.pending, e, ns);
  }

  lemma DeleteKeeps(s: State, ns: string)
    requires s.worker.Deleting? && Coherent(s) && Accounted(s, ns)
    ensures Coherent(Effect(s)) && Accounted(Effect(s), ns)
    ensures Target(s.worker) !in Effect(s).policies
  {
    if Target(s.worker) in s.policies {
      PolicyChangeKeeps(s, Gone(Target(s.worker)), Effect(s), ns);
    }
  }

  lemma EffectKeeps(s: State, ns: string)
    requires !s.worker.Idle? && Coherent(s) && Accounted(s, ns)
    ensures Coherent(Effect(s)) && Accounted(Effect(s), ns)
  {
    if s.worker.Writing? && !Refused(s) {
      WriteKeeps(s, ns);
    } else if s.worker.Deleting? {
      DeleteKeeps(s, ns);
    }
  }

  /** Moving the worker and requeueing its namespace matters to no other one. */
  lemma OtherNamespace(s: State, t: State, ns: string)
    requires t == s.(queue := t.queue, worker := t.worker) && s.queue <= t.queue
    requires !InProcess(s, ns) && !InProcess(t, ns) && Accounted(s, ns)
    ensures Accounted(t, ns)
  {
  }

  lemma WriteAnswered(s: State, ns: string)
    requires s.worker.Writing? && !Refused(s) && Coherent(s) && Accounted(s, ns)
    ensures Coherent(Advance(Effect(s))) && Accounted(Advance(Effect(s)), ns)
  {
    WriteKeeps(s, ns);
    if s.worker.namespace != ns {
      OtherNamespace(Effect(s), Advance(Effect(s)), ns);
    }
  }

  lemma DeleteAnswered(s: State, ns: string)
    requires s.worker.Deleting? && Coherent(s) && Accounted(s, ns)
    ensures Coherent(Advance(Effect(s))) && Accounted(Advance(Effect(s)), ns)
  {
    DeleteKeeps(s, ns);
    EffectFrame(s);
    if s.worker.namespace != ns {
      OtherNamespace(Effect(s), Advance(Effect(s)), ns);
    }
  }

  lemma AnswerKeeps(s: State, ns: string)
    requires !s.worker.Idle? && Coherent(s) && Accounted(s, ns)
    ensures Coherent(Answer(s)) && Accounted(Answer(s), ns)
  {
    match s.worker
    case Listing(_) => ListKeeps(s, ns);
    case Reading(_, _) => ReadKeeps(s, ns);
    case Writing(_, _, _) =>
      if !Refused(s) { WriteAnswered(s, ns); }
    case Deleting(_, _) => DeleteAnswered(s, ns);
  }

  /** A restart accounts for every namespace, whatever the server holds. */
  lemma RestartAccounts(s: State, a: Action, ns: string)
    requires a.Restart? && Enabled(s, a)
    ensures Coherent(Do(s, a)) && Accounted(Do(s, a), ns)
  {
    ListingReplays(s.gateways, a.gatewayListing);
    ListingReplays(s.policies, a.policyListing);
    GatewayListingLoud(s.gateways, map[], a.gatewayListing);
    PolicyListingLoud(s.policies, map[], a.policyListing);
    if Wanted(s.gateways, ns) {
      var k :| k in s.gateways && k.namespace == ns && IsManagedGateway(s.gateways[k]);
      GatewayListingSignals(map[], a.gatewayListing, k, s.gateways[k]);
    } else if !Agrees(s, ns) {
      var hop := if HopAbsent(s, ns, ProxyIngress) then ProxyEgress else ProxyIngress;
      var k := Key(ns, PolicyName(hop));
      PolicyListingSignals(map[], a.policyListing, k, s.policies[k]);
    }
  }

  lemma {:induction false} GatewayListingLoud(server: map<Key, Gateway>, part: map<Key, Gateway>, es: seq<Event<Gateway>>)
    requires forall k :: k in part ==> k in server && part[k] == server[k]
    requires forall i :: 0 <= i < |es| ==> es[i].Put? && es[i].key in server && es[i].value == server[es[i].key]
    ensures LoudGateways(part, es)
    decreases |es|
  {
    if es != [] { GatewayListingLoud(server, Apply(part, es[0]), es[1..]); }
  }

  lemma {:induction false} PolicyListingLoud(server: map<Key, Stored>, part: map<Key, Stored>, es: seq<Event<Stored>>)
    requires forall k :: k in part ==> k in server && part[k] == server[k]
    requires forall i :: 0 <= i < |es| ==> es[i].Put? && es[i].key in server && es[i].value == server[es[i].key]
    ensures LoudPolicies(part, es)
    decreases |es|
  {
    if es != [] { PolicyListingLoud(server, Apply(part, es[0]), es[1..]); }
  }

  lemma {:induction false} GatewayListingSignals(cache: map<Key, Gateway>, es: seq<Event<Gateway>>, k: Key, gw: Gateway)
    requires Put(k, gw) in es && IsManagedGateway(gw)
    ensures GatewaySignals(cache, es, k.namespace)
    decreases |es|
  {
    if es[0] != Put(k, gw) { GatewayListingSignals(Apply(cache, es[0]), es[1..], k, gw); }
  }

  lemma {:induction false} PolicyListingSignals(cache: map<Key, Stored>, es: seq<Event<Stored>>, k: Key, np: Stored)
    requires Put(k, np) in es && Noticed(np.labels)
    ensures PolicySignals(cache, es, k.namespace)
    decreases |es|
  {
    if es[0] != Put(k, np) { PolicyListingSignals(Apply(cache, es[0]), es[1..], k, np); }
  }

  lemma StepAccounts(s: State, a: Action, ns: string)
    requires Coherent(s) && Accounted(s, ns) && Enabled(s, a) && !Silent(s, a)
    ensures Coherent(Do(s, a)) && Accounted(Do(s, a), ns)
  {
    var s' := Do(s, a);
    match a
    case PutGateway(k, gw) => GatewayChangeKeeps(s, Put(k, gw), s', ns);
    case RemoveGateway(k) => GatewayChangeKeeps(s, Gone(k), s', ns);
    case PutPolicy(k, _, _, _) => PolicyChangeKeeps(s, Put(k, s'.policies[k]), s', ns);
    case RemovePolicy(k) => PolicyChangeKeeps(s, Gone(k), s', ns);
    case DeliverGateway => DeliverGatewayKeeps(s, ns);
    case DeliverPolicy => DeliverPolicyKeeps(s, ns);
    case Begin(_) =>
    case Call(outcome) =>
      if outcome.Answered? { AnswerKeeps(s, ns); } else { EffectKeeps(s, ns); }
    case Restart(_, _) => RestartAccounts(s, a, ns);
  }

  // ---- Runs ----

  /** No external edit of the run is one the watches cannot see. */
  ghost predicate Visible(s: State, actions: seq<Action>)
    decreases |actions|
  {
    actions != [] ==> !Silent(s, actions[0]) && Visible(Act(s, actions[0]), actions[1..])
  }

  lemma {:induction false} RunKeepsHealthy(s: State, actions: seq<Action>)
    requires Healthy(s) && Visible(s, actions)
    ensures Healthy(Run(s, actions))
    decreases |actions|
  {
    if actions != [] {
      var s' := Act(s, actions[0]);
      if Enabled(s, actions[0]) {
        forall ns: string
          ensures Coherent(s') && Accounted(s', ns)
        {
          StepAccounts(s, actions[0], ns);
        }
        StepAccounts(s, actions[0], "");
      }
      RunKeepsHealthy(s', actions[1..]);
    }
  }

  /** Drift never goes unnoticed: after any interleaving of visible edits, event
      deliveries, reconcile calls (failing or not) and restarts, a namespace
      whose policies disagree with its Gateways is queued, in process, or has
      an undelivered event that will queue it. */
  lemma DriftIsSignalled(s: State, actions: seq<Action>, ns: string)
    requires Healthy(s) && Visible(s, actions)
    ensures var t := Run(s, actions);
            Agrees(t, ns) || Signalled(t, ns) || InProcess(t, ns)
  {
    RunKeepsHealthy(s, actions);
    assert Accounted(Run(s, actions), ns);
  }

  /** So once nothing is in flight, every namespace agrees. */
  lemma QuiescenceAgrees(s: State, actions: seq<Action>, ns: string)
    requires Healthy(s) && Visible(s, actions) && Quiescent(Run(s, actions))
    ensures Agrees(Run(s, actions), ns)
  {
    DriftIsSignalled(s, actions, ns);
  }

  /** Managed policies at the data-plane names are of a known hop. */
  predicate KnownHops(s: State) {
    forall k :: k in s.policies && DataPlaneKey(k) && IsManagedPolicy(s.policies[k].labels) ==> Noticed(s.policies[k].labels)
  }

  predicate StoresKnownHop(a: Action) {
    a.PutPolicy? && DataPlaneKey(a.key) && IsManagedPolicy(a.labels) ==> Noticed(a.labels)
  }

  lemma EffectKeepsKnownHops(s: State)
    requires KnownHops(s)
    ensures KnownHops(Effect(s))
  {
    if s.worker.Writing? { DesiredIsNoticed(s.worker.namespace, s.worker.hop); }
  }

  lemma StepKeepsKnownHops(s: State, a: Action)
    requires KnownHops(s) && StoresKnownHop(a) && Enabled(s, a)
    ensures KnownHops(Do(s, a))
  {
    if a.Call? {
      EffectKeepsKnownHops(s);
      CallFrame(s, a.outcome);
    }
  }

  lemma {:induction false} RunKeepsKnownHops(s: State, actions: seq<Action>)
    requires KnownHops(s) && forall i :: 0 <= i < |actions| ==> StoresKnownHop(actions[i])
    ensures KnownHops(Run(s, actions))
    decreases |actions|
  {
    if actions != [] {
      if Enabled(s, actions[0]) { StepKeepsKnownHops(s, actions[0]); }
      RunKeepsKnownHops(Act(s, actions[0]), actions[1..]);
    }
  }

  /** So if nobody stores an unknown hop at the two names, no managed policy at all is
      left there at rest in a namespace without a managed Gateway. */
  lemma NoManagedPolicyLeft(s: State, actions: seq<Action>, k: Key)
    requires Healthy(s) && Visible(s, actions) && Quiescent(Run(s, actions))
    requires KnownHops(s) && forall i :: 0 <= i < |actions| ==> StoresKnownHop(actions[i])
    requires DataPlaneKey(k) && !Wanted(Run(s, actions).gateways, k.namespace)
    ensures k in Run(s, actions).policies ==> !IsManagedPolicy(Run(s, actions).policies[k].labels)
  {
    QuiescenceAgrees(s, actions, k.namespace);
    RunKeepsKnownHops(s, actions);
    assert k == Key(k.namespace, PolicyName(ProxyIngress)) || k == Key(k.namespace, PolicyName(ProxyEgress));
  }

  /** A restart heals everything: from any state whatsoever, including drift the
      watches cannot see, a restart followed by any visible run ends, when
      nothing is in flight, with every namespace in agreement. */
  lemma RestartHeals(s: State, restart: Action, actions: seq<Action>, ns: string)
    requires restart.Restart? && Enabled(s, restart) && Visible(Do(s, restart), actions)
    ensures Healthy(Do(s, restart))
    ensures Quiescent(Run(s, [restart] + actions)) ==> Agrees(Run(s, [restart] + actions), ns)
  {
    var s' := Do(s, restart);
    forall n: string ensures Coherent(s') && Accounted(s', n) { RestartAccounts(s, restart, n); }
    RestartAccounts(s, restart, ns);
    assert ([restart] + actions)[1..] == actions;
    assert Run(s, [restart] + actions) == Run(s', actions);
    if Quiescent(Run(s', actions)) {
      QuiescenceAgrees(s', actions, ns);
    }
  }
}
