/** From a complete reconciliation to traffic: once the bundle is delivered and the
    controller may run, the proxies of every managed Gateway come to reach the control
    plane, by steps of the resource manager and of the controller alone. */
module DeliveredTraffic {
  import opened Kube
  import opened Constants
  import opened DataPlane
  import opened Evaluator
  import opened Connectivity
  import opened ProviderConfigs
  import opened Controller
  import opened ControllerSafety
  import opened ControllerTermination
  import opened EndToEnd
  import opened Worlds
  import opened Environment
  import opened Retention
  import opened FeatureSwitch
  import H = Histories
  import A = Actuators

  /** The control-plane policy is in place. */
  predicate InPlace(s: State) {
    CONTROL_PLANE_KEY in s.policies && InSync(s.policies[CONTROL_PLANE_KEY], ControlPlanePolicy())
  }

  /** Every bundle holds it. */
  lemma BundleHasPolicy(p: Platform, cfg: Config)
    ensures POLICY_OBJECT in Bundle(p, cfg)
  {
    assert POLICY_OBJECT in CONTROL_PLANE_KEYS;
    assert POLICY_OBJECT in Labelled(CONTROL_PLANE_KEYS, CommonLabels());
  }

  lemma PlacingKeepsGenuine(s: State)
    requires GenuineServer(s)
    ensures GenuineServer(PlaceControlPlanePolicy(s)) && InPlace(PlaceControlPlanePolicy(s))
    ensures PlaceControlPlanePolicy(s).gateways == s.gateways
  {
  }

  /** A sync of a delivered bundle puts it there. */
  lemma SyncPlaces(w: World, bundle: Objects)
    requires Delivers(w, bundle) && POLICY_OBJECT in bundle && CanRun(w) && GenuineServer(w.shoot)
    ensures var v := SyncResource(w);
            InPlace(v.shoot) && CanRun(v) && GenuineServer(v.shoot) && v.shoot.gateways == w.shoot.gateways
  {
    PlacingKeepsGenuine(w.shoot);
    assert SyncResource(w).shoot == PlaceControlPlanePolicy(w.shoot);
  }

  lemma ControlPlaneKeyIsApart()
    ensures !DataPlaneKey(CONTROL_PLANE_KEY) && CONTROL_PLANE_KEY == ControlPlanePolicy().ObjectKey()
  {
    assert |DEPLOYMENT_NAME| == 13 && |DATA_PLANE_POLICY_NAME| == 21 && |PROXY_EGRESS_POLICY_NAME| == 28;
  }

  /** The controller leaves it alone. */
  lemma ControllerLeavesIt(s: State, a: Action)
    requires !External(a) && Enabled(s, a) && InPlace(s)
    ensures InPlace(Do(s, a))
  {
    if a.Call? {
      ControlPlaneKeyIsApart();
      CallFrame(s, a.outcome);
    }
  }

  lemma {:induction false} ItStaysInPlace(w: World, steps: seq<EnvAction>)
    requires InPlace(w.shoot) && forall i :: 0 <= i < |steps| ==> steps[i].Shoot? && !External(steps[i].action)
    ensures InPlace(EnvRun(w, steps).shoot)
    decreases |steps|
  {
    if steps != [] {
      if Enabled(w.shoot, steps[0].action) { ControllerLeavesIt(w.shoot, steps[0].action); }
      assert InPlace(EnvStep(w, steps[0]).shoot);
      ItStaysInPlace(EnvStep(w, steps[0]), steps[1..]);
    }
  }

  lemma AgreementIsTraffic(s: State, ns: string, proxy: Endpoint, controlPlane: Endpoint)
    requires InPlace(s) && Agrees(s, ns) && Wanted(s.gateways, ns) && ProxyPod(proxy, ns) && ControlPlanePod(controlPlane)
    ensures Reachable(Specs(s.policies), proxy, controlPlane, Connection(TCP, XDS_PORT))
  {
    ControlPlaneKeyIsApart();
    assert HopPresent(s, ns, ProxyEgress);
    XdsReachable(Specs(s.policies), ns, proxy, controlPlane);
  }

  /** The proxies of every namespace with a managed Gateway reach every control-plane
      pod on the xDS port. */
  ghost predicate ProxiesConnected(s: State) {
    forall ns, proxy, controlPlane :: Wanted(s.gateways, ns) && ProxyPod(proxy, ns) && ControlPlanePod(controlPlane) ==>
      Reachable(Specs(s.policies), proxy, controlPlane, Connection(TCP, XDS_PORT))
  }

  lemma AgreementConnects(s: State)
    requires InPlace(s) && forall ns: string :: Agrees(s, ns)
    ensures ProxiesConnected(s)
  {
    forall ns, proxy, controlPlane | Wanted(s.gateways, ns) && ProxyPod(proxy, ns) && ControlPlanePod(controlPlane)
      ensures Reachable(Specs(s.policies), proxy, controlPlane, Connection(TCP, XDS_PORT))
    {
      AgreementIsTraffic(s, ns, proxy, controlPlane);
    }
  }

  lemma SyncThen(w: World, own: seq<EnvAction>)
    ensures EnvRun(w, [Sync] + own) == EnvRun(SyncResource(w), own)
  {
    assert ([Sync] + own)[1..] == own;
  }

  /** Once the policy is in place, the controller has steps that connect all proxies. */
  lemma ControllerConnects(w: World) returns (own: seq<EnvAction>)
    requires InPlace(w.shoot) && CanRun(w) && GenuineServer(w.shoot)
    ensures forall i :: 0 <= i < |own| ==> own[i].Shoot? && !External(own[i].action)
    ensures EnvRun(w, own).shoot.gateways == w.shoot.gateways && ProxiesConnected(EnvRun(w, own).shoot)
  {
    own := EnabledConverges(w);
    ItStaysInPlace(w, own);
    AgreementConnects(EnvRun(w, own).shoot);
  }

  /** Whatever the shoot holds, from a delivered bundle (each holds the policy) with the
      controller's Deployment in place there are steps of the resource manager and the
      controller alone that connect all proxies. */
  lemma ReconciledReachesTraffic(w: World, bundle: Objects) returns (steps: seq<EnvAction>)
    requires Delivers(w, bundle) && POLICY_OBJECT in bundle && CanRun(w) && GenuineServer(w.shoot)
    ensures forall i :: 0 <= i < |steps| ==> steps[i].Sync? || (steps[i].Shoot? && !External(steps[i].action))
    ensures EnvRun(w, steps).shoot.gateways == w.shoot.gateways && ProxiesConnected(EnvRun(w, steps).shoot)
  {
    SyncPlaces(w, bundle);
    var own := ControllerConnects(SyncResource(w));
    SyncThen(w, own);
    steps := [Sync] + own;
  }

  // ---- From a reconciliation on ----

  /** Stored policies stay genuine versions, whatever the controller and others do. */
  lemma StepKeepsGenuine(s: State, a: Action)
    requires GenuineServer(s) && Enabled(s, a)
    ensures GenuineServer(Do(s, a))
  {
    if a.Call? {
      EffectKeepsGenuine(s);
      CallFrame(s, a.outcome);
    }
  }

  lemma EffectKeepsGenuine(s: State)
    requires GenuineServer(s)
    ensures GenuineServer(Controller.Effect(s))
  {
  }

  lemma DropKeepsGenuine(s: State, k: Key)
    requires GenuineServer(s)
    ensures GenuineServer(DropPolicy(s, k))
  {
  }

  lemma EnvStepKeepsGenuine(w: World, e: EnvAction)
    requires GenuineServer(w.shoot)
    ensures GenuineServer(EnvStep(w, e).shoot)
  {
    match e
    case Shoot(a) => if Enabled(w.shoot, a) { StepKeepsGenuine(w.shoot, a); }
    case Sync =>
      SyncOnShoot(w);
      PlacingKeepsGenuine(w.shoot);
      DropKeepsGenuine(w.shoot, CONTROL_PLANE_KEY);
    case _ =>
  }

  lemma {:induction false} EnvRunKeepsGenuine(w: World, es: seq<EnvAction>)
    requires GenuineServer(w.shoot)
    ensures GenuineServer(EnvRun(w, es).shoot)
    decreases |es|
  {
    if es != [] {
      EnvStepKeepsGenuine(w, es[0]);
      EnvRunKeepsGenuine(EnvStep(w, es[0]), es[1..]);
    }
  }

  lemma CallKeepsGenuine(w: World, c: H.Call)
    requires GenuineServer(w.shoot)
    ensures GenuineServer(H.Effect(w, c).shoot)
  {
    if c.DeletePolicy? { DropKeepsGenuine(w.shoot, c.policy); }
  }

  /** So they are throughout every history of the actuator. */
  lemma {:induction false} HistoryKeepsGenuine(start: World, steps: seq<H.Step>, i: nat, j: nat)
    requires H.IsHistory(start, steps) && i <= j <= |steps| && GenuineServer(H.At(start, steps, i).shoot)
    ensures GenuineServer(H.At(start, steps, j).shoot)
    decreases j
  {
    if i < j {
      HistoryKeepsGenuine(start, steps, i, j - 1);
      H.AtNext(start, steps, j - 1);
      EnvRunKeepsGenuine(H.At(start, steps, j - 1), steps[j - 1].others);
      CallKeepsGenuine(H.Met(steps, j - 1), steps[j - 1].call);
    }
  }

  /** A converged world with the controller switched on leads to traffic. */
  lemma ConvergedReachesTraffic(w: World, p: Platform, cfg: Config) returns (steps: seq<EnvAction>)
    requires A.Converged(w, p, cfg) && cfg.manageDataPlaneNetworkPolicies && GenuineServer(w.shoot)
    ensures forall i :: 0 <= i < |steps| ==> steps[i].Sync? || (steps[i].Shoot? && !External(steps[i].action))
    ensures EnvRun(w, steps).shoot.gateways == w.shoot.gateways && ProxiesConnected(EnvRun(w, steps).shoot)
  {
    BundleHasPolicy(p, cfg);
    steps := ReconciledReachesTraffic(w, Bundle(p, cfg));
  }

  /** A reconciliation that switches the controller on, with anybody at work meanwhile:
      it fails for a stated reason; or a deletion of the ManagedResource was in flight
      and no sync ended it before the write; or from where it ends, steps of the resource
      manager and the controller alone connect the proxies of every managed Gateway. */
  method ReconcileToTraffic(a: A.Actuator, req: A.Request) returns (err: Option<A.Failure>, ghost write: nat, ghost steps: seq<EnvAction>)
    requires a.Valid() && a.Enables(req) && GenuineServer(a.w.shoot)
    modifies a
    ensures a.Valid() && GenuineServer(a.w.shoot)
    ensures err.Some? ==> H.Halted(old(a.trace), a.trace, false)
    ensures err.None? ==> |old(a.trace)| <= write < |a.trace|
    ensures err.None? && (!InDeletion(old(a.w)) || H.Synced(a.trace, |old(a.trace)|, write + 1)) ==>
              && (forall i :: 0 <= i < |steps| ==> steps[i].Sync? || (steps[i].Shoot? && !External(steps[i].action)))
              && EnvRun(a.w, steps).shoot.gateways == a.w.shoot.gateways && ProxiesConnected(EnvRun(a.w, steps).shoot)
  {
    steps := [];
    var failure, swept;
    failure, swept, write := a.Reconcile(req);
    err := failure;
    HistoryKeepsGenuine(a.start, a.trace, |old(a.trace)|, |a.trace|);
    if err.None? && (!InDeletion(old(a.w)) || H.Synced(a.trace, |old(a.trace)|, write + 1)) {
      steps := ConvergedReachesTraffic(a.w, a.platform, Effective(a.decode, req.raw, req.version));
    }
  }
}
