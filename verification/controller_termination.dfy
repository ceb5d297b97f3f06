/** The controller's own writes cannot feed themselves forever: without external
    changes and failing calls, every step lowers a lexicographic rank, so the
    system comes to rest, and it can always be brought to rest. */
module ControllerTermination {
  import opened Kube
  import opened DataPlane
  import opened Informers
  import opened Watches
  import opened Controller
  import opened ControllerSafety

  predicate Internal(a: Action) {
    a.DeliverGateway? || a.DeliverPolicy? || a.Begin? || a.Call?
  }

  /** A failing call: an injected failure, or a write refused while the cache
      still lags behind the policies. */
  predicate Failing(s: State, a: Action) {
    a.Call? && (!a.outcome.Answered? || (s.worker.Writing? && Refused(s) && s.policyInformer.pending != []))
  }

  // ---- Versions ----

  /** The object is the version of `k` that its resource version names. */
  predicate Genuine(revisions: seq<(Key, Stored)>, k: Key, p: Stored) {
    p.resourceVersion < |revisions| && revisions[p.resourceVersion] == (k, p)
  }

  predicate GenuineServer(s: State) {
    forall k :: k in s.policies ==> Genuine(s.revisions, k, s.policies[k])
  }

  /** Objects of the server, the cache, the stream and the worker are genuine, an
      update is only ever attempted on an object that differs from the desired
      one, and an initial listing is never longer than the stream. */
  predicate Sane(s: State) {
    SaneStore(s) && SaneWorker(s.revisions, s.worker)
  }

  predicate SaneStore(s: State) {
    && GenuineServer(s)
    && (forall k :: k in s.policyInformer.cache ==> Genuine(s.revisions, k, s.policyInformer.cache[k]))
    && (forall e :: e in s.policyInformer.pending && e.Put? ==> Genuine(s.revisions, e.key, e.value))
    && s.gatewayInformer.replaying <= |s.gatewayInformer.pending|
    && s.policyInformer.replaying <= |s.policyInformer.pending|
  }

  predicate SaneWorker(revisions: seq<(Key, Stored)>, w: Worker) {
    w.Writing? && w.basis.Some? ==>
      Genuine(revisions, Target(w), w.basis.value) && !InSync(w.basis.value, Desired(w.namespace, w.hop))
  }

  ghost predicate Following(s: State) {
    s.gatewayInformer.Follows(s.gateways) && s.policyInformer.Follows(s.policies)
  }

  lemma StoreKeepsSane(s: State, k: Key, labels: Labels, spec: PolicySpec, annotations: Labels)
    requires Sane(s)
    ensures Sane(StorePolicy(s, k, labels, spec, annotations))
  {
  }

  lemma DropKeepsSane(s: State, k: Key)
    requires Sane(s)
    ensures Sane(DropPolicy(s, k))
  {
  }

  lemma EffectKeepsSane(s: State)
    requires Sane(s)
    ensures Sane(Effect(s))
  {
    if s.worker.Writing? && !Refused(s) {
      var want := Desired(s.worker.namespace, s.worker.hop);
      StoreKeepsSane(s, Target(s.worker), want.labels, want.spec,
                     if s.worker.basis.Some? then s.worker.basis.value.annotations else map[]);
    } else if s.worker.Deleting? {
      DropKeepsSane(s, Target(s.worker));
    }
  }

  lemma CallKeepsSane(s: State, a: Action)
    requires Sane(s) && a.Call? && Enabled(s, a)
    ensures Sane(Do(s, a))
  {
    EffectKeepsSane(s);
    if a.outcome.Answered? {
      AnswerKeepsSane(s);
    }
  }

  lemma AnswerWorkerSane(s: State)
    requires Sane(s) && !s.worker.Idle?
    ensures SaneWorker(Answer(s).revisions, Answer(s).worker)
  {
    if s.worker.Reading? {
      ReadWorkerSane(s);
    } else {
      assert !Answer(s).worker.Writing?;
    }
  }

  lemma ReadWorkerSane(s: State)
    requires Sane(s) && s.worker.Reading?
    ensures SaneWorker(s.revisions, Answer(s).worker) && Answer(s).revisions == s.revisions
  {
  }

  lemma AnswerKeepsSane(s: State)
    requires Sane(s) && !s.worker.Idle? && Sane(Effect(s))
    ensures Sane(Answer(s))
  {
    AnswerIsEffect(s);
    AnswerWorkerSane(s);
  }

  lemma DeliverPolicyKeepsSane(s: State)
    requires Sane(s) && Enabled(s, DeliverPolicy)
    ensures Sane(Do(s, DeliverPolicy))
  {
  }

  /** A restart forgets whatever the controller knew. */
  lemma RestartMakesSane(s: State, a: Action)
    requires GenuineServer(s) && a.Restart? && Enabled(s, a)
    ensures Sane(Do(s, a))
  {
  }

  lemma StepKeepsSane(s: State, a: Action)
    requires Sane(s) && Enabled(s, a)
    ensures Sane(Do(s, a))
  {
    match a
    case PutPolicy(k, labels, spec, annotations) => StoreKeepsSane(s, k, labels, spec, annotations);
    case RemovePolicy(k) => DropKeepsSane(s, k);
    case Call(_) => CallKeepsSane(s, a);
    case DeliverPolicy => DeliverPolicyKeepsSane(s);
    case Restart(_, _) => RestartMakesSane(s, a);
    case _ =>
  }

  lemma StepKeepsFollowing(s: State, a: Action)
    requires Following(s) && Enabled(s, a)
    ensures Following(Do(s, a))
  {
    match a
    case PutGateway(k, gw) => ReplayAppend(s.gatewayInformer.cache, s.gatewayInformer.pending, Put(k, gw));
    case RemoveGateway(k) => ReplayAppend(s.gatewayInformer.cache, s.gatewayInformer.pending, Gone(k));
    case PutPolicy(k, labels, spec, annotations) =>
      ReplayAppend(s.policyInformer.cache, s.policyInformer.pending, Put(k, Do(s, a).policies[k]));
    case RemovePolicy(k) => ReplayAppend(s.policyInformer.cache, s.policyInformer.pending, Gone(k));
    case DeliverGateway =>
    case DeliverPolicy =>
    case Begin(_) =>
    case Call(outcome) => CallKeepsFollowing(s, outcome);
    case Restart(gs, ps) =>
      ListingReplays(s.gateways, gs);
      ListingReplays(s.policies, ps);
  }

  lemma CallKeepsFollowing(s: State, outcome: Outcome)
    requires Following(s) && !s.worker.Idle?
    ensures Following(Do(s, Call(outcome)))
  {
    CallFrame(s, outcome);
    EffectFrame(s);
    if Effect(s) != s {
      var v :| Effect(s).policies == Apply(s.policies, v) && Effect(s).policyInformer == s.policyInformer.Push(v);
      ReplayAppend(s.policyInformer.cache, s.policyInformer.pending, v);
    }
  }

  // ---- The rank ----

  datatype Rank = Rank(
    gatewayEvents: nat,
    staleCalls: nat,
    drift: nat,
    policyEvents: nat,
    doomed: nat,
    queued: nat,
    calls: nat)

  /** Lexicographic order, first component first. */
  predicate Below(a: Rank, b: Rank) {
    || a.gatewayEvents < b.gatewayEvents
    || (a.gatewayEvents == b.gatewayEvents &&
        (|| a.staleCalls < b.staleCalls
         || (a.staleCalls == b.staleCalls &&
             (|| a.drift < b.drift
              || (a.drift == b.drift &&
                  (|| a.policyEvents < b.policyEvents
                   || (a.policyEvents == b.policyEvents &&
                       (|| a.doomed < b.doomed
                        || (a.doomed == b.doomed &&
                            (a.queued < b.queued || (a.queued == b.queued && a.calls < b.calls)))))))))))
  }

  /** Upper bound of the calls left in the current reconcile. */
  function CallsLeft(w: Worker): nat {
    match w
    case Idle => 0
    case Listing(_) => 5
    case Reading(_, hop) => if hop.ProxyIngress? then 4 else 2
    case Writing(_, hop, _) => if hop.ProxyIngress? then 3 else 1
    case Deleting(_, hop) => if hop.ProxyIngress? then 2 else 1
  }

  /** The reconcile in progress acts on a decision the cached Gateways no longer
      support. */
  predicate Stale(s: State) {
    match s.worker
    case Reading(ns, _) => !Wanted(s.gatewayInformer.cache, ns)
    case Writing(ns, _, _) => !Wanted(s.gatewayInformer.cache, ns)
    case Deleting(ns, _) => Wanted(s.gatewayInformer.cache, ns)
    case _ => false
  }

  /** The server's policy differs from what the cached Gateways demand. */
  predicate Drifts(s: State, ns: string, hop: Hop) {
    if Wanted(s.gatewayInformer.cache, ns) then !HopPresent(s, ns, hop) else Key(ns, PolicyName(hop)) in s.policies
  }

  function Namespaces(s: State): set<string> {
    (set k | k in s.gatewayInformer.cache :: k.namespace) + (set k | k in s.policies :: k.namespace)
  }

  function DriftKeys(s: State): set<(string, Hop)> {
    set ns, hop | ns in Namespaces(s) && hop in {ProxyIngress, ProxyEgress} && Drifts(s, ns, hop) :: (ns, hop)
  }

  lemma DriftKeysExact(s: State, ns: string, hop: Hop)
    ensures (ns, hop) in DriftKeys(s) <==> Drifts(s, ns, hop)
  {
  }

  function RankOf(s: State): Rank {
    Rank(|s.gatewayInformer.pending|,
         if Stale(s) then CallsLeft(s.worker) else 0,
         |DriftKeys(s)|,
         |s.policyInformer.pending|,
         if s.worker.Writing? && s.policyInformer.pending == [] && Refused(s) then 1 else 0,
         |s.queue|,
         CallsLeft(s.worker))
  }

  lemma {:induction false} SubsetCardinality<T>(a: set<T>, b: set<T>)
    requires a <= b
    ensures |a| <= |b| && (a < b ==> |a| < |b|)
  {
    assert |b| == |a| + |b - a| by { assert b == a + (b - a); }
    if a < b {
      var x :| x in b - a;
      assert |b - a| > 0;
    }
  }

  /** Fixing one drifting policy and touching no other lowers the drift. */
  lemma DriftFalls(s: State, s': State, ns: string, hop: Hop)
    requires s'.gatewayInformer == s.gatewayInformer
    requires forall k :: k != Key(ns, PolicyName(hop)) ==>
               (k in s.policies <==> k in s'.policies) && (k in s.policies ==> s.policies[k] == s'.policies[k])
    requires !Drifts(s', ns, hop)
    ensures DriftKeys(s') <= DriftKeys(s)
    ensures |DriftKeys(s')| <= |DriftKeys(s)|
    ensures Drifts(s, ns, hop) ==> |DriftKeys(s')| < |DriftKeys(s)|
  {
    forall n: string, h: Hop
      ensures (n, h) in DriftKeys(s') ==> (n, h) in DriftKeys(s)
    {
      DriftKeysExact(s, n, h);
      DriftKeysExact(s', n, h);
    }
    DriftKeysExact(s, ns, hop);
    DriftKeysExact(s', ns, hop);
    SubsetCardinality(DriftKeys(s'), DriftKeys(s));
  }

  lemma DriftUnchanged(s: State, s': State)
    requires s'.gatewayInformer == s.gatewayInformer && s'.policies == s.policies
    ensures DriftKeys(s') == DriftKeys(s)
  {
  }

  lemma DeliveryLowersRank(s: State, a: Action)
    requires (a.DeliverGateway? || a.DeliverPolicy?) && Enabled(s, a)
    ensures Below(RankOf(Do(s, a)), RankOf(s))
  {
    var s' := Do(s, a);
    if a.DeliverPolicy? {
      DriftUnchanged(s, s');
    } else {
      assert RankOf(s').gatewayEvents < RankOf(s).gatewayEvents;
    }
  }

  lemma BeginLowersRank(s: State, a: Action)
    requires a.Begin? && Enabled(s, a)
    ensures Below(RankOf(Do(s, a)), RankOf(s))
  {
    DriftUnchanged(s, Do(s, a));
  }

  /** A read moves the worker on; it leads to a write only of a policy that the
      server would accept, as far as the cache has caught up. */
  lemma ReadLowersRank(s: State)
    requires (s.worker.Listing? || s.worker.Reading?) && Following(s)
    ensures Below(RankOf(Answer(s)), RankOf(s))
  {
    DriftUnchanged(s, Answer(s));
  }

  /** A write on a current decision repairs a drifting policy. */
  lemma WriteLowersRank(s: State)
    requires s.worker.Writing? && !Refused(s) && Sane(s)
    ensures Below(RankOf(Answer(s)), RankOf(s))
  {
    var s' := Answer(s);
    if !Stale(s) {
      DriftFalls(s, s', s.worker.namespace, s.worker.hop);
    }
  }

  lemma RefusalLowersRank(s: State)
    requires s.worker.Writing? && Refused(s) && s.policyInformer.pending == []
    ensures Below(RankOf(Answer(s)), RankOf(s))
  {
    DriftUnchanged(s, Answer(s));
  }

  lemma DeleteLowersRank(s: State)
    requires s.worker.Deleting?
    ensures Below(RankOf(Answer(s)), RankOf(s))
  {
    var s' := Answer(s);
    if !Stale(s) {
      if Target(s.worker) in s.policies {
        DriftFalls(s, s', s.worker.namespace, s.worker.hop);
      } else {
        DriftUnchanged(s, s');
      }
    }
  }

  /** Every internal step that does not fail lowers the rank. */
  lemma StepLowersRank(s: State, a: Action)
    requires Sane(s) && Following(s)
    requires Internal(a) && Enabled(s, a) && !Failing(s, a)
    ensures Below(RankOf(Do(s, a)), RankOf(s))
  {
    match a
    case DeliverGateway => DeliveryLowersRank(s, a);
    case DeliverPolicy => DeliveryLowersRank(s, a);
    case Begin(_) => BeginLowersRank(s, a);
    case Call(_) =>
      match s.worker {
        case Listing(_) => ReadLowersRank(s);
        case Reading(_, _) => ReadLowersRank(s);
        case Writing(_, _, _) => if Refused(s) { RefusalLowersRank(s); } else { WriteLowersRank(s); }
        case Deleting(_, _) => DeleteLowersRank(s);
      }
  }

  /** Step n of an endless schedule is an internal step that does not fail. */
  ghost predicate QuietStep(states: nat -> State, actions: nat -> Action, n: nat) {
    && Internal(actions(n)) && Enabled(states(n), actions(n)) && !Failing(states(n), actions(n))
    && states(n + 1) == Do(states(n), actions(n))
  }

  /** No self-triggered loop: every endless schedule has, from every point on,
      another external change, another restart or another failing call. */
  lemma {:induction false} NoSelfTriggeredLoop(states: nat -> State, actions: nat -> Action, from: nat)
    requires Sane(states(from)) && Following(states(from))
    ensures exists n :: n >= from && !QuietStep(states, actions, n)
    decreases RankOf(states(from)).gatewayEvents, RankOf(states(from)).staleCalls, RankOf(states(from)).drift,
              RankOf(states(from)).policyEvents, RankOf(states(from)).doomed, RankOf(states(from)).queued,
              RankOf(states(from)).calls
  {
    if QuietStep(states, actions, from) {
      StepKeepsSane(states(from), actions(from));
      StepKeepsFollowing(states(from), actions(from));
      StepLowersRank(states(from), actions(from));
      NoSelfTriggeredLoop(states, actions, from + 1);
    }
  }

  // ---- Refused writes ----

  /** The first four components of the rank, in lexicographic order. */
  predicate HeadBelow(a: Rank, b: Rank) {
    || a.gatewayEvents < b.gatewayEvents
    || (a.gatewayEvents == b.gatewayEvents &&
        (|| a.staleCalls < b.staleCalls
         || (a.staleCalls == b.staleCalls &&
             (a.drift < b.drift || (a.drift == b.drift && a.policyEvents < b.policyEvents)))))
  }

  predicate SameHead(a: Rank, b: Rank) {
    a.gatewayEvents == b.gatewayEvents && a.staleCalls == b.staleCalls && a.drift == b.drift && a.policyEvents == b.policyEvents
  }

  predicate HeadAtMost(a: Rank, b: Rank) {
    HeadBelow(a, b) || SameHead(a, b)
  }

  /** An internal step in which no failure was injected; a write may be refused. */
  predicate Undisturbed(s: State, a: Action) {
    Internal(a) && Enabled(s, a) && (a.Call? ==> a.outcome.Answered?)
  }

  /** A refused write leaves the head of the rank where it is or lowers it. */
  lemma RefusalKeepsHead(s: State)
    requires s.worker.Writing? && Refused(s)
    ensures HeadAtMost(RankOf(Answer(s)), RankOf(s))
  {
    DriftUnchanged(s, Answer(s));
  }

  lemma StepKeepsHead(s: State, a: Action)
    requires Sane(s) && Following(s) && Undisturbed(s, a)
    ensures HeadAtMost(RankOf(Do(s, a)), RankOf(s))
  {
    if Failing(s, a) {
      RefusalKeepsHead(s);
    } else {
      StepLowersRank(s, a);
    }
  }

  lemma PolicyDeliveryLowersHead(s: State)
    requires Enabled(s, DeliverPolicy)
    ensures HeadBelow(RankOf(Do(s, DeliverPolicy)), RankOf(s))
  {
    DriftUnchanged(s, Do(s, DeliverPolicy));
  }

  ghost predicate OwnStep(states: nat -> State, actions: nat -> Action, n: nat) {
    Undisturbed(states(n), actions(n)) && states(n + 1) == Do(states(n), actions(n))
  }

  lemma {:induction false} HeadOver(states: nat -> State, actions: nat -> Action, from: nat, until: nat)
    requires from <= until && Sane(states(from)) && Following(states(from))
    requires forall n :: from <= n < until ==> OwnStep(states, actions, n)
    ensures Sane(states(until)) && Following(states(until)) && HeadAtMost(RankOf(states(until)), RankOf(states(from)))
    decreases until
  {
    if from < until {
      HeadOver(states, actions, from, until - 1);
      assert OwnStep(states, actions, until - 1);
      StepKeepsSane(states(until - 1), actions(until - 1));
      StepKeepsFollowing(states(until - 1), actions(until - 1));
      StepKeepsHead(states(until - 1), actions(until - 1));
    }
  }

  /** While policy events are undelivered, one will be delivered. */
  ghost predicate PoliciesDelivered(states: nat -> State, actions: nat -> Action, from: nat) {
    forall n :: n >= from && states(n).policyInformer.pending != [] ==> exists m :: m >= n && actions(m).DeliverPolicy?
  }

  /** A step that is internal and fails without an injected failure is a refused write
      while policy events are undelivered. */
  lemma RefusalsMeanLag(states: nat -> State, actions: nat -> Action, n: nat)
    requires OwnStep(states, actions, n) && !QuietStep(states, actions, n)
    ensures states(n).policyInformer.pending != []
  {
  }

  /** So in an endless undisturbed schedule a policy event is delivered later on. */
  lemma LaterDelivery(states: nat -> State, actions: nat -> Action, from: nat) returns (m: nat)
    requires Sane(states(from)) && Following(states(from)) && PoliciesDelivered(states, actions, from)
    requires forall n :: n >= from ==> OwnStep(states, actions, n)
    ensures m >= from && actions(m).DeliverPolicy?
  {
    NoSelfTriggeredLoop(states, actions, from);
    var n :| n >= from && !QuietStep(states, actions, n);
    RefusalsMeanLag(states, actions, n);
    m :| m >= n && actions(m).DeliverPolicy?;
  }

  lemma HeadTransitive(a: Rank, b: Rank, c: Rank)
    requires HeadBelow(a, b) && HeadAtMost(b, c)
    ensures HeadBelow(a, c)
  {
  }

  lemma OneDelivery(states: nat -> State, actions: nat -> Action, m: nat)
    requires Sane(states(m)) && Following(states(m)) && OwnStep(states, actions, m) && actions(m).DeliverPolicy?
    ensures Sane(states(m + 1)) && Following(states(m + 1)) && HeadBelow(RankOf(states(m + 1)), RankOf(states(m)))
  {
    StepKeepsSane(states(m), actions(m));
    StepKeepsFollowing(states(m), actions(m));
    PolicyDeliveryLowersHead(states(m));
  }

  lemma DeliveryLowersHead(states: nat -> State, actions: nat -> Action, from: nat, m: nat)
    requires Sane(states(from)) && Following(states(from)) && m >= from && actions(m).DeliverPolicy?
    requires forall n :: n >= from ==> OwnStep(states, actions, n)
    ensures Sane(states(m + 1)) && Following(states(m + 1)) && HeadBelow(RankOf(states(m + 1)), RankOf(states(from)))
  {
    HeadOver(states, actions, from, m);
    OneDelivery(states, actions, m);
    HeadTransitive(RankOf(states(m + 1)), RankOf(states(m)), RankOf(states(from)));
  }

  /** Refused writes cannot go on forever either: every endless schedule that keeps
      delivering policy events has, from every point on, another external change,
      another restart or another injected failure. */
  lemma {:induction false} NoEndlessRefusals(states: nat -> State, actions: nat -> Action, from: nat)
    requires Sane(states(from)) && Following(states(from)) && PoliciesDelivered(states, actions, from)
    ensures exists n :: n >= from && !OwnStep(states, actions, n)
    decreases RankOf(states(from)).gatewayEvents, RankOf(states(from)).staleCalls, RankOf(states(from)).drift,
              RankOf(states(from)).policyEvents
  {
    if forall n :: n >= from ==> OwnStep(states, actions, n) {
      var m := LaterDelivery(states, actions, from);
      DeliveryLowersHead(states, actions, from, m);
      NoEndlessRefusals(states, actions, m + 1);
    }
  }

  // ---- Coming to rest ----

  /** Unless at rest, some internal step is possible that does not fail. */
  lemma NextStep(s: State) returns (a: Action)
    requires Sane(s) && !Quiescent(s)
    ensures Internal(a) && Enabled(s, a) && !Failing(s, a)
  {
    if s.gatewayInformer.pending != [] {
      a := DeliverGateway;
    } else if s.policyInformer.pending != [] {
      a := DeliverPolicy;
    } else if !s.worker.Idle? {
      a := Call(Answered);
    } else {
      var ns :| ns in s.queue;
      a := Begin(ns);
    }
  }

  /** From any state the controller comes to rest by its own steps alone. */
  lemma {:induction false} ComesToRest(s: State) returns (actions: seq<Action>)
    requires Sane(s) && Following(s)
    ensures Quiescent(Run(s, actions))
    ensures forall a :: a in actions ==> Internal(a)
    ensures Visible(s, actions)
    decreases RankOf(s).gatewayEvents, RankOf(s).staleCalls, RankOf(s).drift, RankOf(s).policyEvents,
              RankOf(s).doomed, RankOf(s).queued, RankOf(s).calls
  {
    if Quiescent(s) {
      actions := [];
    } else {
      var a := NextStep(s);
      StepKeepsSane(s, a);
      StepKeepsFollowing(s, a);
      StepLowersRank(s, a);
      var rest := ComesToRest(Do(s, a));
      actions := [a] + rest;
      assert actions[1..] == rest;
    }
  }

  /** Whatever the server holds and whatever the controller knew, the controller,
      once restarted, brings every namespace into agreement by a finite run of
      its own steps. */
  lemma RestartConverges(s: State) returns (actions: seq<Action>)
    requires GenuineServer(s)
    ensures actions != [] && actions[0].Restart? && Enabled(s, actions[0])
    ensures forall i :: 0 < i < |actions| ==> Internal(actions[i])
    ensures Quiescent(Run(s, actions)) && forall ns: string :: Agrees(Run(s, actions), ns)
  {
    var gs := ListingExists(s.gateways);
    var ps := ListingExists(s.policies);
    var restart := Restart(gs, ps);
    var s' := Do(s, restart);
    RestartMakesSane(s, restart);
    ListingReplays(s.gateways, gs);
    ListingReplays(s.policies, ps);
    var rest := ComesToRest(s');
    actions := [restart] + rest;
    assert actions[1..] == rest;
    forall ns: string ensures Agrees(Run(s, actions), ns) { RestartHeals(s, restart, rest, ns); }
  }

  // ---- What a repair leaves alone ----

  /** A call of the controller keeps the annotations of every policy it does not delete,
      however it ends; a policy it creates has none. */
  lemma CallKeepsAnnotations(s: State, outcome: Outcome, k: Key)
    requires Sane(s) && !s.worker.Idle? && k in Do(s, Call(outcome)).policies
    ensures Do(s, Call(outcome)).policies[k].annotations == if k in s.policies then s.policies[k].annotations else map[]
  {
    CallFrame(s, outcome);
    if s.worker.Writing? && k == Target(s.worker) && !Refused(s) && s.worker.basis.Some? {
      BasisIsCurrent(s);
    }
  }

  /** An update that is accepted starts from the object as it is stored. */
  lemma BasisIsCurrent(s: State)
    requires Sane(s) && s.worker.Writing? && s.worker.basis.Some? && !Refused(s)
    ensures Target(s.worker) in s.policies && s.policies[Target(s.worker)] == s.worker.basis.value
  {
  }

  /** The policy is stored at every moment of the run. */
  ghost predicate StaysStored(s: State, actions: seq<Action>, k: Key)
    decreases |actions|
  {
    k in s.policies && (actions != [] ==> StaysStored(Act(s, actions[0]), actions[1..], k))
  }

  /** So a policy that the controller's own steps leave in place keeps its annotations,
      whatever it repairs about it, over every run and every restart. */
  lemma {:induction false} RunKeepsAnnotations(s: State, actions: seq<Action>, k: Key)
    requires Sane(s) && StaysStored(s, actions, k) && forall i :: 0 <= i < |actions| ==> !External(actions[i])
    ensures k in Run(s, actions).policies && Run(s, actions).policies[k].annotations == s.policies[k].annotations
    decreases |actions|
  {
    if actions != [] {
      var a := actions[0];
      if Enabled(s, a) {
        StepKeepsSane(s, a);
        if a.Call? { CallKeepsAnnotations(s, a.outcome, k); }
      }
      assert Act(s, a).policies[k].annotations == s.policies[k].annotations;
      RunKeepsAnnotations(Act(s, a), actions[1..], k);
    }
  }
}
