/** Every change the controller makes is justified by history: the Gateways it
    acts on are those the API server held at some moment since the controller
    last started. */
module ControllerHistory {
  import opened Kube
  import opened DataPlane
  import opened Informers
  import opened Watches
  import opened Controller
  import opened ControllerSafety
  import opened ControllerTermination

  /** A state with the server's Gateways at every moment since the last restart. */
  datatype Traced = Traced(state: State, log: seq<map<Key, Gateway>>)

  ghost function Trace(t: Traced, a: Action): Traced {
    var s' := Act(t.state, a);
    Traced(s', if a.Restart? && Enabled(t.state, a) then [s'.gateways] else t.log + [s'.gateways])
  }

  ghost function TraceRun(t: Traced, actions: seq<Action>): Traced
    decreases |actions|
  {
    if actions == [] then t else TraceRun(Trace(t, actions[0]), actions[1..])
  }

  ghost predicate Held(log: seq<map<Key, Gateway>>, ns: string, wanted: bool) {
    exists i :: 0 <= i < |log| && Wanted(log[i], ns) == wanted
  }

  /** The Gateway cache, after the next i events. */
  ghost function Upcoming(inf: Informer<Gateway>, i: nat): map<Key, Gateway>
    requires i <= |inf.pending|
  {
    Replay(inf.cache, inf.pending[..i])
  }

  /** From the end of the initial listing on, the cache is and will be a state
      the server was in, and so is the basis of the worker's decision. */
  ghost predicate Grounded(t: Traced) {
    var s := t.state;
    && Following(s)
    && s.gateways in t.log
    && (forall i :: s.gatewayInformer.replaying <= i <= |s.gatewayInformer.pending| ==>
          Upcoming(s.gatewayInformer, i) in t.log)
    && (!s.worker.Idle? ==> s.gatewayInformer.replaying == 0)
    && (s.worker.Reading? || s.worker.Writing? ==> Held(t.log, s.worker.namespace, true))
    && (s.worker.Deleting? ==> Held(t.log, s.worker.namespace, false))
  }

  lemma PushKeepsGrounded(t: Traced, e: Event<Gateway>, t': Traced)
    requires Grounded(t)
    requires GatewayChange(t.state, e, t'.state) && t'.log == t.log + [t'.state.gateways]
    ensures Grounded(t')
  {
    var inf, inf' := t.state.gatewayInformer, t'.state.gatewayInformer;
    ReplayAppend(inf.cache, inf.pending, e);
    assert t'.log[|t.log|] == t'.state.gateways;
    forall i | inf'.replaying <= i <= |inf'.pending|
      ensures Upcoming(inf', i) in t'.log
    {
      if i <= |inf.pending| {
        assert inf'.pending[..i] == inf.pending[..i];
        assert Upcoming(inf, i) in t.log;
      } else {
        assert inf'.pending[..i] == inf.pending + [e];
      }
    }
    HeldGrows(t.log, t'.log);
  }

  lemma HeldGrows(log: seq<map<Key, Gateway>>, log': seq<map<Key, Gateway>>)
    requires log <= log'
    ensures forall ns, wanted :: Held(log, ns, wanted) ==> Held(log', ns, wanted)
  {
  }

  lemma DeliverKeepsGrounded(t: Traced)
    requires Grounded(t) && Enabled(t.state, DeliverGateway)
    ensures Grounded(Trace(t, DeliverGateway))
  {
    var t' := Trace(t, DeliverGateway);
    var inf, inf' := t.state.gatewayInformer, t'.state.gatewayInformer;
    forall i | inf'.replaying <= i <= |inf'.pending|
      ensures Upcoming(inf', i) in t'.log
    {
      assert inf.pending[..i + 1][1..] == inf'.pending[..i];
      assert Upcoming(inf, i + 1) in t.log;
    }
    HeldGrows(t.log, t'.log);
  }

  /** Steps that leave the Gateway side alone. */
  lemma OtherStepKeepsGrounded(t: Traced, a: Action)
    requires Grounded(t) && Enabled(t.state, a)
    requires a.PutPolicy? || a.RemovePolicy? || a.DeliverPolicy? || a.Begin?
    ensures Grounded(Trace(t, a))
  {
    StepKeepsFollowing(t.state, a);
    HeldGrows(t.log, Trace(t, a).log);
  }

  lemma CallKeepsGrounded(t: Traced, a: Action)
    requires Grounded(t) && a.Call? && Enabled(t.state, a)
    ensures Grounded(Trace(t, a))
  {
    var t' := Trace(t, a);
    CallFrame(t.state, a.outcome);
    CallKeepsFollowing(t.state, a.outcome);
    WorkerMoves(t.state, a.outcome);
    HeldGrows(t.log, t'.log);
    if t.state.worker.Listing? && a.outcome.Answered? {
      assert Upcoming(t.state.gatewayInformer, 0) == t.state.gatewayInformer.cache;
      assert t.state.gatewayInformer.cache in t.log;
      assert Held(t.log, t.state.worker.namespace, Wanted(t.state.gatewayInformer.cache, t.state.worker.namespace));
    }
  }

  /** The worker's decision is taken when it lists, from the cached Gateways. */
  lemma WorkerMoves(s: State, outcome: Outcome)
    requires !s.worker.Idle?
    ensures var w := Do(s, Call(outcome)).worker;
            && (w.Reading? || w.Writing? ==>
                  s.worker.Reading? || s.worker.Writing? || (s.worker.Listing? && outcome.Answered? && Wanted(s.gatewayInformer.cache, s.worker.namespace)))
            && (w.Deleting? ==>
                  s.worker.Deleting? || (s.worker.Listing? && outcome.Answered? && !Wanted(s.gatewayInformer.cache, s.worker.namespace)))
  {
  }

  /** A call touches the one policy the worker is at, and writes the desired one. */
  lemma CallChanges(s: State, outcome: Outcome, k: Key)
    requires !s.worker.Idle?
    ensures var after := Do(s, Call(outcome)).policies;
            && (k in s.policies && k !in after ==> s.worker.Deleting? && k == Target(s.worker))
            && (k in after && (k !in s.policies || after[k] != s.policies[k]) ==>
                  s.worker.Writing? && k == Target(s.worker) && InSync(after[k], Desired(s.worker.namespace, s.worker.hop)))
  {
    CallFrame(s, outcome);
    EffectChanges(s, k);
  }

  lemma EffectChanges(s: State, k: Key)
    ensures var after := Effect(s).policies;
            && (k in s.policies && k !in after ==> s.worker.Deleting? && k == Target(s.worker))
            && (k in after && (k !in s.policies || after[k] != s.policies[k]) ==>
                  s.worker.Writing? && k == Target(s.worker) && InSync(after[k], Desired(s.worker.namespace, s.worker.hop)))
  {
  }

  lemma RestartGrounds(t: Traced, a: Action)
    requires a.Restart? && Enabled(t.state, a)
    ensures Grounded(Trace(t, a))
  {
    var inf := Trace(t, a).state.gatewayInformer;
    ListingReplays(t.state.gateways, a.gatewayListing);
    ListingReplays(t.state.policies, a.policyListing);
    assert inf.pending[..|inf.pending|] == inf.pending;
  }

  lemma StepKeepsGrounded(t: Traced, a: Action)
    requires Grounded(t)
    ensures Grounded(Trace(t, a))
  {
    if !Enabled(t.state, a) {
      HeldGrows(t.log, Trace(t, a).log);
    } else {
      match a
      case PutGateway(k, gw) => PushKeepsGrounded(t, Put(k, gw), Trace(t, a));
      case RemoveGateway(k) => PushKeepsGrounded(t, Gone(k), Trace(t, a));
      case DeliverGateway => DeliverKeepsGrounded(t);
      case Call(_) => CallKeepsGrounded(t, a);
      case Restart(_, _) => RestartGrounds(t, a);
      case _ => OtherStepKeepsGrounded(t, a);
    }
  }

  lemma {:induction false} RunKeepsGrounded(t: Traced, actions: seq<Action>)
    requires Grounded(t)
    ensures Grounded(TraceRun(t, actions))
    decreases |actions|
  {
    if actions != [] {
      StepKeepsGrounded(t, actions[0]);
      RunKeepsGrounded(Trace(t, actions[0]), actions[1..]);
    }
  }

  /** In every run that starts the controller, a call of a reconcile changes at
      most one policy; that policy has one of the two managed names and lives in
      the reconciled namespace; if it is removed, the server held no managed
      Gateway there at some moment since the controller last started; if it is
      written, the server held one, and the result is the desired policy. */
  lemma ChangesAreJustified(s: State, restart: Action, actions: seq<Action>, outcome: Outcome, k: Key)
    requires restart.Restart? && Enabled(s, restart)
    requires var t := TraceRun(Trace(Traced(s, []), restart), actions); Enabled(t.state, Call(outcome))
    ensures var t := TraceRun(Trace(Traced(s, []), restart), actions);
            var after := Do(t.state, Call(outcome));
            && after.gateways == t.state.gateways
            && (k in t.state.policies && k !in after.policies ==>
                  k.namespace == t.state.worker.namespace && DataPlaneKey(k) && Held(t.log, k.namespace, false))
            && (k in after.policies && (k !in t.state.policies || after.policies[k] != t.state.policies[k]) ==>
                  && k.namespace == t.state.worker.namespace && DataPlaneKey(k) && Held(t.log, k.namespace, true)
                  && exists hop: Hop :: InSync(after.policies[k], Desired(k.namespace, hop)) && k.name == PolicyName(hop))
  {
    RestartGrounds(Traced(s, []), restart);
    RunKeepsGrounded(Trace(Traced(s, []), restart), actions);
    var t := TraceRun(Trace(Traced(s, []), restart), actions);
    CallFrame(t.state, outcome);
    CallChanges(t.state, outcome, k);
  }
}
