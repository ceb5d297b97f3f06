/** Switching the feature on and off: a controller that may run converges; and it
    has to go before its policies, since in the reversed order the controller,
    still running, restores what the prune deleted. */
module FeatureSwitch {
  import opened Kube
  import opened DataPlane
  import opened Controller
  import opened ControllerSafety
  import opened ControllerTermination
  import opened Environment

  function ByController(actions: seq<Action>): seq<EnvAction> {
    seq(|actions|, i requires 0 <= i < |actions| => Shoot(actions[i]))
  }

  /** While it runs, the controller's steps drive the shoot. */
  lemma {:induction false} ControllerDrives(w: World, actions: seq<Action>)
    requires w.running && forall i :: 0 <= i < |actions| ==> Internal(actions[i])
    ensures EnvRun(w, ByController(actions)) == w.(shoot := Run(w.shoot, actions))
    decreases |actions|
  {
    if actions != [] {
      assert ByController(actions)[1..] == ByController(actions[1..]);
      ControllerDrives(w.(shoot := Act(w.shoot, actions[0])), actions[1..]);
    }
  }

  predicate LeavesGateways(a: Action) {
    Internal(a) || a.RemovePolicy?
  }

  lemma {:induction false} GatewaysStay(s: State, actions: seq<Action>)
    requires forall i :: 0 <= i < |actions| ==> LeavesGateways(actions[i])
    ensures Run(s, actions).gateways == s.gateways
    decreases |actions|
  {
    if actions != [] {
      if actions[0].Call? && Enabled(s, actions[0]) {
        CallFrame(s, actions[0].outcome);
      }
      assert Act(s, actions[0]).gateways == s.gateways;
      GatewaysStay(Act(s, actions[0]), actions[1..]);
    }
  }

  lemma {:induction false} PruneIsVisible(s: State, prune: seq<Action>)
    requires forall i :: 0 <= i < |prune| ==> prune[i].RemovePolicy?
    ensures Visible(s, prune)
    decreases |prune|
  {
    if prune != [] {
      PruneIsVisible(Act(s, prune[0]), prune[1..]);
    }
  }

  lemma {:induction false} RunKeepsSaneAndFollowing(s: State, actions: seq<Action>)
    requires Sane(s) && Following(s)
    ensures Sane(Run(s, actions)) && Following(Run(s, actions))
    decreases |actions|
  {
    if actions != [] {
      if Enabled(s, actions[0]) {
        StepKeepsSane(s, actions[0]);
        StepKeepsFollowing(s, actions[0]);
      }
      RunKeepsSaneAndFollowing(Act(s, actions[0]), actions[1..]);
    }
  }

  /** A step of a user on Gateways or policies. */
  predicate ByUser(e: EnvAction) {
    e.Shoot? && External(e.action)
  }

  /** The Gateways and all policies but that of the control plane are the same. */
  ghost predicate SamePolicies(s: State, t: State) {
    && t.gateways == s.gateways
    && forall k :: k != CONTROL_PLANE_KEY ==>
         (k in t.policies <==> k in s.policies) && (k in s.policies ==> t.policies[k] == s.policies[k])
  }

  lemma StoppedStep(w: World, e: EnvAction)
    requires Stopped(w) && !ByUser(e)
    ensures SamePolicies(w.shoot, EnvStep(w, e).shoot) && Stopped(EnvStep(w, e))
  {
    if e.Sync? {
      forall k | k != CONTROL_PLANE_KEY
        ensures k in EnvStep(w, e).shoot.policies <==> k in w.shoot.policies
        ensures k in w.shoot.policies ==> EnvStep(w, e).shoot.policies[k] == w.shoot.policies[k]
      {
        SyncOnPolicies(w, k);
      }
    }
  }

  /** Without a controller and without users, Gateways and policies stay. */
  lemma {:induction false} StoppedIsStill(w: World, es: seq<EnvAction>)
    requires Stopped(w) && forall i :: 0 <= i < |es| ==> !ByUser(es[i])
    ensures SamePolicies(w.shoot, EnvRun(w, es).shoot) && Stopped(EnvRun(w, es))
    decreases |es|
  {
    if es != [] {
      StoppedStep(w, es[0]);
      StoppedIsStill(EnvStep(w, es[0]), es[1..]);
    }
  }

  /** Pruning first and tearing down second: whatever policies the prune deletes,
      the controller has steps that bring the policies of every namespace with a
      managed Gateway back before its Deployment goes, and then they stay,
      whatever the resource manager and others do to other objects. */
  lemma ReversedOrderLeavesPolicies(w: World, prune: seq<Action>, ns: string) returns (steps: seq<EnvAction>)
    requires w.running && Healthy(w.shoot) && Sane(w.shoot) && Wanted(w.shoot.gateways, ns)
    requires forall i :: 0 <= i < |prune| ==> prune[i].RemovePolicy?
    ensures var pruned := w.(shoot := Run(w.shoot, prune));
            var tornDown := EnvRun(pruned, steps).(deployment := None, running := false, accessSecret := false);
            && Agrees(tornDown.shoot, ns)
            && forall later :: (forall i :: 0 <= i < |later| ==> !ByUser(later[i])) ==>
                 SamePolicies(tornDown.shoot, EnvRun(tornDown, later).shoot) && !Pruned(EnvRun(tornDown, later))
  {
    var s := Run(w.shoot, prune);
    PruneIsVisible(w.shoot, prune);
    RunKeepsHealthy(w.shoot, prune);
    RunKeepsSaneAndFollowing(w.shoot, prune);
    var actions := ComesToRest(s);
    assert forall i :: 0 <= i < |actions| ==> actions[i] in actions;
    QuiescenceAgrees(s, actions, ns);
    GatewaysStay(w.shoot, prune);
    GatewaysStay(s, actions);
    steps := ByController(actions);
    ControllerDrives(w.(shoot := s), actions);
    var tornDown := EnvRun(w.(shoot := s), steps).(deployment := None, running := false, accessSecret := false);
    var k := Key(ns, PolicyName(ProxyIngress));
    assert HopPresent(tornDown.shoot, ns, ProxyIngress);
    SelectionFits(ns, ProxyIngress, tornDown.shoot.policies[k].labels);
    forall later | forall i :: 0 <= i < |later| ==> !ByUser(later[i])
      ensures SamePolicies(tornDown.shoot, EnvRun(tornDown, later).shoot) && !Pruned(EnvRun(tornDown, later))
    {
      StoppedIsStill(tornDown, later);
      assert Selected(EnvRun(tornDown, later), k);
    }
  }

  /** With its Deployment in place, the controller has a run, whatever the state
      of the shoot, that ends with every namespace in agreement. */
  lemma EnabledConverges(w: World) returns (steps: seq<EnvAction>)
    requires CanRun(w) && GenuineServer(w.shoot)
    ensures forall i :: 0 <= i < |steps| ==> steps[i].Shoot? && !External(steps[i].action)
    ensures var v := EnvRun(w, steps);
            v.running && Quiescent(v.shoot) && v.shoot.gateways == w.shoot.gateways && forall ns: string :: Agrees(v.shoot, ns)
  {
    var actions := RestartConverges(w.shoot);
    var own := actions[1..];
    var started := w.(shoot := Do(w.shoot, actions[0]), running := true);
    steps := [Shoot(actions[0])] + ByController(own);
    assert steps[1..] == ByController(own);
    assert EnvRun(w, steps) == EnvRun(started, ByController(own));
    ControllerDrives(started, own);
    GatewaysStay(started.shoot, own);
    assert actions == [actions[0]] + own;
    assert Run(w.shoot, actions) == Run(started.shoot, own);
  }
}
