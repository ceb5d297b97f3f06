/** The state the actuator works on and the steps of everybody else. */
module Environment {
  import opened Kube
  import opened Constants
  import opened DataPlane
  import opened Watches
  import opened Worlds
  import C = Controller
  import T = ControllerTermination

  /** The seed Deployment of the data-plane policy controller. */
  datatype NetpolDeployment = NetpolDeployment(image: string, kubeconfig: string, replicas: int)

  /** The ManagedResource; `applied` records what the resource manager applied. */
  datatype ManagedResource = ManagedResource(bundle: Objects, applied: set<ObjectKey>, keepObjects: bool, deleting: bool)

  datatype World = World(
    shoot: C.State,         // Gateways and policies of the shoot, and the controller's memory
    terminating: set<Key>,  // Gateways with a deletion timestamp
    objects: Objects,       // everything else in the shoot
    running: bool,          // the controller process is up
    deployment: Option<NetpolDeployment>,
    accessSecret: bool,
    certificates: bool,
    resource: Option<ManagedResource>)

  /** Steps of others: users and the controller on Gateways and policies, a sync
      of the resource manager, and anybody else on the other objects. */
  datatype EnvAction =
    | Shoot(action: C.Action)
    | Sync
    | PutObject(object_: ObjectKey, labels: Labels)
    | RemoveObject(object_: ObjectKey)

  predicate CanRun(w: World) {
    w.deployment.Some? && w.deployment.value.replicas > 0
  }

  /** One reconciliation of the ManagedResource: apply the bundle and remove what
      left it; or, when it is being deleted, remove what was applied unless told
      to keep it, and let the ManagedResource go. */
  function SyncResource(w: World): World {
    if w.resource.None? then w else
    var r := w.resource.value;
    if r.deleting then
      w.(resource := None, objects := if r.keepObjects then w.objects else w.objects - r.applied,
         shoot := if r.keepObjects || POLICY_OBJECT !in r.applied then w.shoot else DropControlPlanePolicy(w.shoot))
    else
      w.(resource := Some(r.(applied := r.bundle.Keys)),
         objects := (w.objects - (r.applied - r.bundle.Keys)) + r.bundle,
         shoot := if POLICY_OBJECT in r.bundle then PlaceControlPlanePolicy(w.shoot)
                  else if POLICY_OBJECT in r.applied then DropControlPlanePolicy(w.shoot) else w.shoot)
  }

  const CONTROL_PLANE_KEY: Key := Key(NAMESPACE, DEPLOYMENT_NAME)

  /** The control-plane policy as the resource manager applies it: stored unless it is
      there with the desired labels and specification. */
  function PlaceControlPlanePolicy(s: C.State): C.State {
    if CONTROL_PLANE_KEY in s.policies && C.InSync(s.policies[CONTROL_PLANE_KEY], ControlPlanePolicy()) then s
    else C.StorePolicy(s, CONTROL_PLANE_KEY, ControlPlanePolicy().labels, ControlPlanePolicy().spec, map[])
  }

  function DropControlPlanePolicy(s: C.State): C.State {
    C.DropPolicy(s, CONTROL_PLANE_KEY)
  }

  /** Either way no other policy is touched, and no Gateway. */
  lemma OtherPoliciesStay(s: C.State, k: Key)
    requires k != CONTROL_PLANE_KEY
    ensures forall t :: t in {PlaceControlPlanePolicy(s), DropControlPlanePolicy(s)} ==>
              && t.gateways == s.gateways && (k in t.policies <==> k in s.policies)
              && (k in s.policies ==> t.policies[k] == s.policies[k])
  {
  }

  lemma SyncOnShoot(w: World)
    ensures SyncResource(w).shoot in {w.shoot, PlaceControlPlanePolicy(w.shoot), DropControlPlanePolicy(w.shoot)}
  {
  }

  lemma SyncOnPolicies(w: World, k: Key)
    requires k != CONTROL_PLANE_KEY
    ensures SyncResource(w).shoot.gateways == w.shoot.gateways
    ensures k in SyncResource(w).shoot.policies <==> k in w.shoot.policies
    ensures k in w.shoot.policies ==> SyncResource(w).shoot.policies[k] == w.shoot.policies[k]
  {
    SyncOnShoot(w);
    OtherPoliciesStay(w.shoot, k);
  }

  /** What is stored there is not selected. */
  lemma SyncSelects(w: World, k: Key)
    requires Selected(SyncResource(w), k)
    ensures Selected(w, k)
  {
    SyncOnShoot(w);
    SelectionFits("", ProxyIngress, map[]);
    if k != CONTROL_PLANE_KEY { SyncOnPolicies(w, k); }
  }

  lemma SyncNoNewPolicies(w: World)
    ensures NoNewPolicies(w, SyncResource(w))
  {
    forall k | Selected(SyncResource(w), k)
      ensures Selected(w, k)
    {
      SyncSelects(w, k);
    }
  }

  /** Users act on the shoot at any time; the controller acts while it runs, and
      starts when its Deployment asks for a replica. */
  function ShootStep(w: World, a: C.Action): World {
    if C.External(a) then
      w.(shoot := C.Act(w.shoot, a), terminating := if a.RemoveGateway? then w.terminating - {a.key} else w.terminating)
    else if w.running && T.Internal(a) then w.(shoot := C.Act(w.shoot, a))
    else if a.Restart? && CanRun(w) && C.Enabled(w.shoot, a) then w.(shoot := C.Do(w.shoot, a), running := true)
    else w
  }

  function EnvStep(w: World, e: EnvAction): World {
    match e
    case Shoot(a) => ShootStep(w, a)
    case Sync => SyncResource(w)
    case PutObject(k, labels) => w.(objects := w.objects[k := labels])
    case RemoveObject(k) => w.(objects := w.objects - {k})
  }

  function EnvRun(w: World, es: seq<EnvAction>): World
    decreases |es|
  {
    if es == [] then w else EnvRun(EnvStep(w, es[0]), es[1..])
  }

  // ---- Invariants ----

  /** The controller's Deployment exists only with its access secret, the process
      only with a Deployment that asks for it; no bundle holds an orphan. */
  predicate Sound(w: World) {
    && (w.deployment.Some? ==> w.accessSecret)
    && (w.running ==> CanRun(w))
    && TidyBundle(w)
  }

  /** The ManagedResource does not stand without the certificates it refers to. */
  predicate Certified(w: World) {
    w.resource.Some? ==> w.certificates
  }

  predicate TidyBundle(w: World) {
    w.resource.Some? ==> NoOrphans(w.resource.value.bundle)
  }

  /** The selector of the shoot-wide prune. */
  function ManagedDataPlanePolicyListOptions(): Selector {
    Selector(map[LABEL_MANAGED_BY := MANAGED_BY_GARDENER], [Exists(LABEL_HOP)])
  }

  /** A data-plane policy of this extension: managed by gardener, with a hop. */
  predicate PruneSelects(labels: Labels) {
    LABEL_MANAGED_BY in labels && labels[LABEL_MANAGED_BY] == MANAGED_BY_GARDENER && LABEL_HOP in labels
  }

  /** The same with names and values written out. */
  lemma SelectionMeaning(labels: Labels)
    ensures PruneSelects(labels) <==>
            && "app.kubernetes.io/managed-by" in labels && labels["app.kubernetes.io/managed-by"] == "gardener"
            && "envoy-gateway.extensions.gardener.cloud/hop" in labels
  {
  }

  /** The selector finds exactly those. */
  lemma PruneFindsPolicies(labels: Labels)
    ensures Selects(ManagedDataPlanePolicyListOptions(), labels) <==> PruneSelects(labels)
  {
    var s := ManagedDataPlanePolicyListOptions();
    assert LABEL_MANAGED_BY in s.matchLabels;
    assert Meets(s.matchExpressions[0], labels) <==> LABEL_HOP in labels;
  }

  /** Every policy the controller writes or reacts to is selected; the extension's
      control-plane policy is not. */
  lemma SelectionFits(ns: string, hop: Hop, labels: Labels)
    ensures PruneSelects(Desired(ns, hop).labels)
    ensures IsManagedPolicy(labels) ==> PruneSelects(labels)
    ensures !PruneSelects(ControlPlanePolicy().labels)
  {
  }

  predicate Selected(w: World, k: Key) {
    k in w.shoot.policies && PruneSelects(w.shoot.policies[k].labels)
  }

  predicate OrphanAt(w: World, k: ObjectKey) {
    k in w.objects && Orphan(k, w.objects[k])
  }

  /** No controller runs, and none will be started. */
  predicate Stopped(w: World) {
    !CanRun(w) && !w.running
  }

  /** The feature is off for good: no controller and no policy of its kind. */
  ghost predicate Pruned(w: World) {
    Stopped(w) && forall k :: !Selected(w, k)
  }

  predicate InDeletion(w: World) {
    w.resource.Some? && w.resource.value.deleting
  }

  /** Nobody but the controller writes policies of its kind. */
  predicate Tame(es: seq<EnvAction>) {
    forall i :: 0 <= i < |es| ==> TameAction(es[i])
  }

  predicate TameAction(e: EnvAction) {
    e.Shoot? && e.action.PutPolicy? ==> !PruneSelects(e.action.labels)
  }

  /** Nobody creates objects of the kind the sweep is after. */
  predicate Tidy(es: seq<EnvAction>) {
    forall i :: 0 <= i < |es| ==> TidyAction(es[i])
  }

  predicate TidyAction(e: EnvAction) {
    e.PutObject? ==> !Orphan(e.object_, e.labels)
  }

  /** Nobody but the resource manager touches the object. */
  predicate HandsOff(es: seq<EnvAction>, k: ObjectKey) {
    forall i :: 0 <= i < |es| ==> HandsOffAction(es[i], k)
  }

  predicate HandsOffAction(e: EnvAction, k: ObjectKey) {
    e.PutObject? || e.RemoveObject? ==> e.object_ != k
  }

  // ---- What others may have done between two calls ----

  /** The seed side is as it was, but for syncs of the ManagedResource. */
  ghost predicate Elsewhere(w: World, w': World) {
    && w'.deployment == w.deployment && w'.accessSecret == w.accessSecret && w'.certificates == w.certificates
    && SameResource(w, w')
    && (Sound(w) ==> Sound(w')) && (TidyBundle(w) ==> TidyBundle(w'))
  }

  ghost predicate SameResource(w: World, w': World) {
    && (w'.resource.Some? ==>
          && w.resource.Some? && w'.resource.value.bundle == w.resource.value.bundle
          && w'.resource.value.keepObjects == w.resource.value.keepObjects
          && w'.resource.value.deleting == w.resource.value.deleting)
    && (w.resource.Some? && !w.resource.value.deleting ==> w'.resource.Some?)
  }

  /** Without a controller, policies of its kind only become fewer. */
  ghost predicate NoNewPolicies(w: World, w': World) {
    Stopped(w) ==> Stopped(w') && forall k :: Selected(w', k) ==> Selected(w, k)
  }

  ghost predicate NoNewOrphans(w: World, w': World) {
    forall k :: OrphanAt(w', k) ==> OrphanAt(w, k)
  }

  lemma SyncNoNewOrphans(w: World)
    requires TidyBundle(w)
    ensures NoNewOrphans(w, SyncResource(w))
  {
    if w.resource.Some? {
      assert forall k :: k in w.resource.value.bundle ==> k !in OrphansOf(w.resource.value.bundle);
    }
  }

  lemma ShootStepElsewhere(w: World, a: C.Action)
    ensures Elsewhere(w, ShootStep(w, a)) && ShootStep(w, a).objects == w.objects
    ensures TameAction(Shoot(a)) ==> NoNewPolicies(w, ShootStep(w, a))
  {
    var w' := ShootStep(w, a);
    if Stopped(w) && C.External(a) && TameAction(Shoot(a)) {
      assert forall k :: Selected(w', k) ==> Selected(w, k);
    }
  }

  lemma StepElsewhere(w: World, e: EnvAction)
    ensures Elsewhere(w, EnvStep(w, e))
    ensures TameAction(e) ==> NoNewPolicies(w, EnvStep(w, e))
    ensures TidyBundle(w) && TidyAction(e) ==> NoNewOrphans(w, EnvStep(w, e))
  {
    match e
    case Shoot(a) => ShootStepElsewhere(w, a);
    case Sync =>
      SyncNoNewPolicies(w);
      if TidyBundle(w) { SyncNoNewOrphans(w); }
    case _ =>
  }

  lemma {:induction false} RunElsewhere(w: World, es: seq<EnvAction>)
    ensures Elsewhere(w, EnvRun(w, es))
    ensures Tame(es) ==> NoNewPolicies(w, EnvRun(w, es))
    ensures TidyBundle(w) && Tidy(es) ==> NoNewOrphans(w, EnvRun(w, es))
    decreases |es|
  {
    if es != [] {
      StepElsewhere(w, es[0]);
      RunElsewhere(EnvStep(w, es[0]), es[1..]);
    }
  }

  /** A deletion in flight ends with a sync, and nobody else starts one. */
  lemma {:induction false} DeletionAcross(w: World, es: seq<EnvAction>)
    ensures InDeletion(EnvRun(w, es)) <==> InDeletion(w) && Sync !in es
    ensures InDeletion(w) && Sync !in es ==> EnvRun(w, es).resource == w.resource
    decreases |es|
  {
    if es != [] {
      DeletionAcross(EnvStep(w, es[0]), es[1..]);
      assert es == [es[0]] + es[1..];
    }
  }
}
