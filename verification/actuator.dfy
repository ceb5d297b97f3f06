/** The actuator: its operations as sequences of API calls, any of which may fail
    and end the operation, with everybody else moving in between. */
module Actuators {
  import opened Kube
  import opened ProviderConfigs
  import opened Worlds
  import opened Environment
  import opened Histories
  import opened GatewayGuards
  import opened Cleanups
  import opened Retention
  import opened Removals
  import C = Controller

  /** What others do before an API call, and how the call ends. */
  datatype Slot = Slot(others: seq<EnvAction>, outcome: C.Outcome)

  /** Every step has the steps of others and the outcome the schedule says. */
  ghost predicate FollowsSchedule(schedule: nat -> Slot, steps: seq<Step>) {
    forall i {:trigger Scheduled(schedule, steps, i)} :: 0 <= i < |steps| ==> Scheduled(schedule, steps, i)
  }

  predicate Scheduled(schedule: nat -> Slot, steps: seq<Step>, i: nat)
    requires i < |steps|
  {
    steps[i].others == schedule(i).others && steps[i].outcome == schedule(i).outcome
  }

  lemma ScheduleAppend(schedule: nat -> Slot, steps: seq<Step>, s: Step)
    requires FollowsSchedule(schedule, steps)
    requires s.others == schedule(|steps|).others && s.outcome == schedule(|steps|).outcome
    ensures FollowsSchedule(schedule, steps + [s])
  {
    forall i | 0 <= i < |steps + [s]|
      ensures Scheduled(schedule, steps + [s], i)
    {
      assert i < |steps| ==> Scheduled(schedule, steps, i);
    }
  }

  /** Hypotheses on the schedule hold of the steps taken. */
  lemma SchedulePasses(schedule: nat -> Slot, steps: seq<Step>)
    requires FollowsSchedule(schedule, steps)
    ensures (forall n :: Tame(schedule(n).others)) ==> forall i :: 0 <= i < |steps| ==> Tame(steps[i].others)
    ensures (forall n :: Tidy(schedule(n).others)) ==> forall i :: 0 <= i < |steps| ==> Tidy(steps[i].others)
  {
    forall i | 0 <= i < |steps|
      ensures steps[i].others == schedule(i).others
    {
      assert Scheduled(schedule, steps, i);
    }
  }

  datatype Failure =
    | ClusterUnavailable
    | GatewaysInUse
    | GatewaysUnknown
    | GatewaysDraining
    | InvalidConfig
    | SecretsFailed
    | ResourceFailed
    | NetpolFailed
    | PruneFailed

  /** The Extension and its shoot, as an operation finds them; a delete copes
      with a Cluster that carries no shoot. */
  datatype Request = Request(deleting: bool, hibernated: bool, raw: Option<string>, version: string, polls: nat, shootless: bool)
  {
    predicate Live() {
      !deleting && !hibernated
    }
  }

  datatype Operation =
    | Reconciliation(req: Request)
    | Restoration(req: Request)
    | Deletion(req: Request)
    | Migration
    | ForcedDeletion
  {
    predicate Deploys() {
      Reconciliation? || Restoration?
    }

    /** The shoot is being deleted. */
    predicate Drains() {
      (Deploys() || Deletion?) && req.deleting
    }
  }

  // ---- What a configuration asks for ----

  /** The extension-owned state a configuration asks for. */
  predicate Converged(w: World, p: Platform, cfg: Config) {
    && Delivers(w, Bundle(p, cfg)) && w.certificates
    && NetpolConverged(w, p, cfg)
  }

  predicate NetpolConverged(w: World, p: Platform, cfg: Config) {
    NetpolSwitched(w, p, cfg.manageDataPlaneNetworkPolicies)
  }

  /** On: the access secret, and the Deployment with its image, kubeconfig and one
      replica. Off: neither. */
  predicate NetpolSwitched(w: World, p: Platform, enabled: bool) {
    if enabled then w.accessSecret && w.deployment == Some(NetpolDeployment(p.image, p.kubeconfig, 1))
    else w.deployment.None? && !w.accessSecret
  }

  function DesiredDeployment(p: Platform): NetpolDeployment {
    NetpolDeployment(p.image, p.kubeconfig, 1)
  }

  /** The Deployment is as it was, but perhaps with no replicas. */
  predicate KeptOrScaled(before: Option<NetpolDeployment>, after: Option<NetpolDeployment>) {
    after == before || (before.Some? && after == Some(before.value.(replicas := 0)))
  }

  /** The areas that the delivery of a configuration touches: a Deployment of the
      controller only if it is switched on, policies only if it is not. */
  function DeliveryAreas(enabled: bool): set<Area> {
    {Certs, Seed, Deliver, Sweep} + if enabled then {Start} else {Policies}
  }

  const EVERYTHING_BUT_RETIREMENT: set<Area> := {Certs, Seed, Deliver, Sweep, Start, Policies, Gateways}

  /** The areas of switching the controller on or off. */
  function NetpolAreas(enabled: bool): set<Area> {
    if enabled then {Seed, Start} else {Seed, Policies}
  }

  lemma DeliveredAndSwitched(start: World, a: seq<Step>, b: seq<Step>, c: seq<Step>, enabled: bool, write: nat, bundle: Objects)
    requires IsHistory(start, c) && Delivery(a, b, {Certs, Deliver, Sweep}, bundle) && WritesOnce(a, b, write, bundle)
    requires Within(b, c, NetpolAreas(enabled)) && DeletesListed(b, c)
    ensures Delivery(a, c, DeliveryAreas(enabled), bundle) && WritesOnce(a, c, write, bundle)
    ensures At(start, c, |c|).certificates == At(start, b, |b|).certificates
  {
    NoDelivery(b, c, NetpolAreas(enabled), bundle);
    DeliveryOn(a, b, c, {Certs, Deliver, Sweep}, NetpolAreas(enabled), DeliveryAreas(enabled), bundle);
    WritesOnceLonger(a, b, c, write, bundle, NetpolAreas(enabled));
    CertificatesStayWithin(start, b, c, NetpolAreas(enabled));
  }

  /** The reconcile failed before the bundle was delivered. */
  predicate Undelivered(err: Option<Failure>) {
    err in {Some(SecretsFailed), Some(ResourceFailed)}
  }

  /** The areas a delete touches: Gateways only while the shoot is being deleted,
      policies only while it lives. */
  function DeleteAreas(req: Request): set<Area> {
    {Certs, Seed, Retire} + if req.deleting then {Gateways} else if req.shootless then {} else {Policies}
  }

  /** Why the guard of a delete did not let it pass. */
  ghost predicate GuardExcuse(before: seq<Step>, after: seq<Step>, w: World, err: Failure, req: Request) {
    || Halted(before, after, req.deleting)
    || (err == GatewaysInUse && !req.deleting && w.shoot.gateways != map[])
    || (err == GatewaysDraining && req.deleting && StillRemain(before, after, req.polls))
  }

  /** Why a delete failed: besides, the ManagedResource is still there at the wait. */
  ghost predicate DeleteExcuse(before: seq<Step>, after: seq<Step>, w: World, err: Failure, req: Request) {
    GuardExcuse(before, after, w, err, req) || (err == ResourceFailed && StuckAtWait(before, after, w))
  }

  /** Why a reconciliation failed. */
  ghost predicate ReconcileExcuse(before: seq<Step>, after: seq<Step>, err: Failure, req: Request, accepted: bool) {
    || Halted(before, after, req.deleting)
    || (err == InvalidConfig && req.Live() && !accepted)
    || (err == GatewaysDraining && req.deleting && StillRemain(before, after, req.polls))
  }

  ghost predicate StretchIn(steps: seq<Step>, i: nat, j: nat, areas: set<Area>) {
    i <= j <= |steps| && forall x :: i <= x < j ==> Stays(steps[x], areas)
  }

  /** An operation on a shoot in deletion made call j. */
  ghost predicate DrainedAt(j: nat, operations: seq<Operation>, ends: seq<nat>) {
    exists i :: 0 <= i < |ends| - 1 && i < |operations| && operations[i].Drains() && ends[i] <= j < ends[i + 1]
  }

  ghost predicate OnlyDrains(n: nat, steps: seq<Step>, operations: seq<Operation>, ends: seq<nat>) {
    forall j :: n <= j < |steps| && steps[j].call.DeleteGateway? ==> DrainedAt(j, operations, ends)
  }

  /** No call of the stretch touches the shoot. */
  ghost predicate LeavesShoot(before: seq<Step>, after: seq<Step>) {
    forall i :: |before| <= i < |after| ==> ShootSpared(Met(after, i), Left(after, i))
  }

  predicate ShootSpared(w: World, w': World) {
    w'.shoot == w.shoot && w'.terminating == w.terminating && w'.objects == w.objects
  }

  /** One call is added. */
  ghost predicate Makes(before: seq<Step>, after: seq<Step>, call: Call, answered: bool) {
    && before <= after && |after| == |before| + 1
    && after[|before|].call == call && after[|before|].outcome.Answered? == answered
  }

  lemma NextOfScript(a: seq<Step>, b: seq<Step>, c: seq<Step>, script: seq<Call>, i: nat, answered: bool)
    requires i < |script| && Completes(a, b, script[..i]) && Makes(b, c, script[i], answered)
    ensures Runs(a, c, script)
    ensures answered ==> Completes(a, c, script[..i + 1])
  {
  }

  /** A read changes nothing and deletes nothing. */
  lemma OneRead(start: World, before: seq<Step>, after: seq<Step>, call: Call, answered: bool, bundle: Objects)
    requires IsHistory(start, after) && Makes(before, after, call, answered) && AreaOf(call).Nothing?
    ensures Within(before, after, {}) && DeletesListed(before, after) && DeliversOnly(before, after, bundle)
    ensures OnlyOthers(start, before, after) && Issues(before, after, [call]) && (!answered ==> CutOff(before, after))
  {
    ReadsChangeNothing(start, before, after, |after|);
  }

  lemma TwoReads(start: World, before: seq<Step>, known: seq<Step>, after: seq<Step>, answered: bool)
    requires IsHistory(start, after) && Makes(before, known, GetCluster, true) && Makes(known, after, ListGateways, answered)
    ensures Within(before, after, {}) && OnlyOthers(start, before, after)
    ensures answered ==> Completes(before, after, [GetCluster, ListGateways])
  {
    assert after[|before|] == known[|before|];
    assert Within(before, after, {});
    ReadsChangeNothing(start, before, after, |after|);
  }

  /** Two calls of a script, the first of them answered. */
  lemma TwoCalls(a: seq<Step>, b: seq<Step>, c: seq<Step>, first: Call, second: Call, answered: bool, areas: set<Area>)
    requires Makes(a, b, first, true) && Makes(b, c, second, answered) && {AreaOf(first), AreaOf(second)} <= areas + {Nothing}
    ensures Within(a, c, areas) && Runs(a, c, [first, second]) && (answered ==> Completes(a, c, [first, second]))
  {
    assert c[|a|] == b[|a|];
  }

  lemma BundleWritten(a: seq<Step>, b: seq<Step>, c: seq<Step>, bundle: Objects, answered: bool)
    requires Makes(a, b, WriteSecrets, true) && Makes(b, c, WriteResource(bundle), answered) && Met(c, |b|).certificates
    ensures Delivery(a, c, {Certs, Deliver}, bundle) && (answered ==> WritesOnce(a, c, |b|, bundle))
  {
    assert c[|a|] == b[|a|];
    TwoCalls(a, b, c, WriteSecrets, WriteResource(bundle), answered, {Certs, Deliver});
    NoDeletions(a, c, {Certs, Deliver});
  }

  lemma FlagThenDelete(a: seq<Step>, b: seq<Step>, c: seq<Step>)
    requires Makes(a, b, KeepObjects, true) && Within(b, c, {Retire}) && Runs(b, c, [DeleteResource, AwaitResource])
    ensures Within(a, c, {Flag, Retire}) && Runs(a, c, KEEPING)
    ensures Completes(b, c, [DeleteResource, AwaitResource]) ==> Completes(a, c, KEEPING)
  {
    assert Within(a, b, {Flag});
    WithinOn(a, b, c, {Flag}, {Retire}, {Flag, Retire});
    RunsOn(a, b, c, [KeepObjects], [DeleteResource, AwaitResource]);
    assert [KeepObjects] + [DeleteResource, AwaitResource] == KEEPING;
  }

  lemma DeliveryAfterRead(before: seq<Step>, known: seq<Step>, after: seq<Step>, areas: set<Area>, bundle: Objects)
    requires Makes(before, known, GetCluster, true) && Delivery(known, after, areas, bundle)
    ensures Delivery(before, after, areas, bundle)
  {
    assert Within(before, known, {});
    NoDeletions(before, known, {});
    NoDelivery(before, known, {}, bundle);
    DeliveryOn(before, known, after, {}, areas, areas, bundle);
  }

  lemma WritesOnceAfterRead(before: seq<Step>, known: seq<Step>, after: seq<Step>, write: nat, bundle: Objects)
    requires Makes(before, known, GetCluster, true) && WritesOnce(known, after, write, bundle)
    ensures WritesOnce(before, after, write, bundle)
  {
    assert after[|before|].call == GetCluster;
  }

  /** A delivery that follows the read of the Cluster, seen from before that read. */
  lemma AfterRead(start: World, before: seq<Step>, known: seq<Step>, after: seq<Step>, areas: set<Area>, bundle: Objects)
    requires IsHistory(start, after) && Makes(before, known, GetCluster, true) && Delivery(known, after, areas, bundle)
    ensures Delivery(before, after, areas, bundle)
    ensures Within(known, after, {Certs, Deliver}) ==> Within(before, after, {Certs, Deliver})
    ensures forall write :: WritesOnce(known, after, write, bundle) ==> TakesHold(start, before, after, write, bundle)
  {
    DeliveryAfterRead(before, known, after, areas, bundle);
    if Within(known, after, {Certs, Deliver}) {
      WithinOn(before, known, after, {}, {Certs, Deliver}, {Certs, Deliver});
    }
    forall write | WritesOnce(known, after, write, bundle)
      ensures TakesHold(start, before, after, write, bundle)
    {
      WritesOnceAfterRead(before, known, after, write, bundle);
      WrittenTakesHold(start, before, after, write, bundle);
    }
  }

  lemma TeardownAreas(before: seq<Step>, after: seq<Step>)
    requires Issues(before, after, TEARDOWN)
    ensures Within(before, after, {Seed})
  {
  }

  lemma LeavesShootWithin(start: World, before: seq<Step>, after: seq<Step>, areas: set<Area>)
    requires IsHistory(start, after) && Within(before, after, areas)
    requires Policies !in areas && Gateways !in areas && Sweep !in areas
    ensures LeavesShoot(before, after)
  {
    forall i | |before| <= i < |after|
      ensures ShootSpared(Met(after, i), Left(after, i))
    {
      CallsSpare(start, before, after, areas, i);
    }
  }

  /** The seed side of the extension is gone. */
  predicate Retired(w: World) {
    w.resource.None? && w.deployment.None? && !w.accessSecret
  }

  lemma AllKindsSwept(n: nat, steps: seq<Step>, kinds: seq<Kind>)
    requires kinds == SWEPT_KINDS && n < |steps|
    requires forall k: ObjectKey :: k.kind in kinds ==> SawNoOrphan(n, steps, k)
    ensures forall k :: SawNoOrphan(n, steps, k)
  {
    SweptKindsAreAll();
    forall k
      ensures SawNoOrphan(n, steps, k)
    {
      if k.kind !in kinds {
        assert !OrphanAt(Met(steps, n), k);
      }
    }
  }

  class Actuator {
    var w: World
    var calls: nat
    const schedule: nat -> Slot
    const platform: Platform
    const decode: Decoder
    ghost const start: World
    ghost var trace: seq<Step>

    /** The world is where the calls made so far lead, each with the steps of
        others and the outcome that the schedule has for it. The ManagedResource never
        stands without its certificates, unless it did at the start. */
    ghost predicate Valid()
      reads this
    {
      && calls == |trace| && IsHistory(start, trace) && w == At(start, trace, |trace|) && Sound(w)
      && FollowsSchedule(schedule, trace) && (Certified(start) ==> Certified(w))
    }

    constructor (w: World, schedule: nat -> Slot, platform: Platform, decode: Decoder)
      requires Sound(w)
      ensures Valid() && trace == [] && this.w == w && start == w
      ensures this.schedule == schedule && this.platform == platform && this.decode == decode
    {
      this.w, this.calls, this.schedule := w, 0, schedule;
      this.platform, this.decode := platform, decode;
      this.start, this.trace := w, [];
    }

    /** Nobody but the controller writes policies of its kind. */
    ghost predicate Calm() {
      forall n :: Tame(schedule(n).others)
    }

    /** Nobody makes new orphans. */
    ghost predicate Clean() {
      forall n :: Tidy(schedule(n).others)
    }

    /** An API call: others move, then it takes effect or not, and is answered or
        not. Every change the actuator makes is one of these. */
    method Do(call: Call) returns (failed: bool)
      requires Valid() && Careful(w, call)
      modifies this`w, this`calls, this`trace
      ensures Valid() && Makes(old(trace), trace, call, !failed)
      ensures Elsewhere(old(w), Met(trace, |old(trace)|))
      ensures w == Left(trace, |old(trace)|)
      ensures w == if trace[|old(trace)|].outcome.Lost? then Met(trace, |old(trace)|)
                   else Effect(Met(trace, |old(trace)|), call)
    {
      var slot := schedule(calls);
      ghost var step := TakeStep(w, slot.others, call, slot.outcome);
      HistoryAppend(start, trace, step);
      ScheduleAppend(schedule, trace, step);
      StepKeepsSound(w, slot.others, call, slot.outcome);
      w := EnvRun(w, slot.others);
      if !slot.outcome.Lost? {
        w := Effect(w, call);
      }
      failed := !slot.outcome.Answered?;
      calls := calls + 1;
      trace := trace + [step];
    }

    /** A call that leaves the controller's Deployment and access secret alone. */
    method Aside(call: Call) returns (failed: bool)
      requires Valid() && Careful(w, call)
      requires AreaOf(call) !in {Seed, Start}
      modifies this`w, this`calls, this`trace
      ensures Valid() && Makes(old(trace), trace, call, !failed)
      ensures w.deployment == old(w).deployment && w.accessSecret == old(w).accessSecret
      ensures AreaOf(call) !in {Deliver, Flag, Retire} ==> SameResource(old(w), w)
      ensures call.DeleteSecrets? && !failed ==> !w.certificates
      ensures call.WriteSecrets? && !failed ==> w.certificates
      ensures AreaOf(call) != Certs ==> w.certificates == Met(trace, |old(trace)|).certificates == old(w).certificates
    {
      failed := Do(call);
    }

    // ---- The controller's Deployment and access secret ----

    /** One deletion of the teardown; an absent object is fine. */
    method DeleteSeedObject(call: Call) returns (failed: bool)
      requires Valid() && (call == DeleteDeployment || (call == DeleteAccessSecret && w.deployment.None?))
      modifies this`w, this`calls, this`trace
      ensures Valid() && Makes(old(trace), trace, call, !failed)
      ensures !failed ==> w.deployment.None? && (call == DeleteAccessSecret ==> !w.accessSecret)
    {
      failed := Do(call);
    }

    /** Deletes the Deployment, then the access secret. */
    method Teardown() returns (failed: bool)
      requires Valid()
      modifies this`w, this`calls, this`trace
      ensures Valid() && Within(old(trace), trace, {Seed}) && Runs(old(trace), trace, TEARDOWN)
      ensures !failed ==> Completes(old(trace), trace, TEARDOWN) && w.deployment.None? && !w.accessSecret
      ensures failed ==> Halted(old(trace), trace, true)
    {
      var i := 0;
      failed := false;
      while i < |TEARDOWN|
        invariant 0 <= i <= |TEARDOWN| && !failed
        invariant Valid() && Completes(old(trace), trace, TEARDOWN[..i])
        invariant i >= 1 ==> w.deployment.None?
        invariant i == 2 ==> !w.accessSecret
      {
        ghost var before := trace;
        failed := DeleteSeedObject(TEARDOWN[i]);
        NextOfScript(old(trace), before, trace, TEARDOWN, i, !failed);
        if failed {
          TeardownAreas(old(trace), trace);
          return;
        }
        i := i + 1;
      }
      assert TEARDOWN[..i] == TEARDOWN;
      TeardownAreas(old(trace), trace);
    }

    method MintAccessSecret() returns (failed: bool)
      requires Valid()
      modifies this`w, this`calls, this`trace
      ensures Valid() && Makes(old(trace), trace, WriteAccessSecret, !failed)
      ensures !failed || old(w).accessSecret ==> w.accessSecret
    {
      failed := Do(WriteAccessSecret);
    }

    /** Creates or updates the Deployment. */
    method ApplyDeployment(d: NetpolDeployment) returns (failed: bool)
      requires Valid() && w.accessSecret && d.replicas > 0
      modifies this`w, this`calls, this`trace
      ensures Valid() && Makes(old(trace), trace, WriteDeployment(d), !failed)
      ensures w.accessSecret && (!failed ==> w.deployment == Some(d))
    {
      failed := Do(WriteDeployment(d));
    }

    /** Mints the access secret and builds the Deployment with image and kubeconfig. */
    method PrepareDeployment() returns (failed: bool)
      requires Valid()
      modifies this`w, this`calls, this`trace
      ensures Valid() && Within(old(trace), trace, {Seed})
      ensures !failed || old(w).accessSecret ==> w.accessSecret
      ensures failed ==> Halted(old(trace), trace, true)
    {
      failed := MintAccessSecret();
      if failed { return; }
      ghost var minted := trace;
      failed := Aside(BuildDeployment);
      TwoCalls(old(trace), minted, trace, WriteAccessSecret, BuildDeployment, !failed, {Seed});
    }

    /** Prepares the Deployment and applies it. */
    method Ensure() returns (failed: bool)
      requires Valid()
      modifies this`w, this`calls, this`trace
      ensures Valid() && Within(old(trace), trace, {Seed, Start})
      ensures old(w).accessSecret ==> w.accessSecret
      ensures !failed ==> w.accessSecret && w.deployment == Some(NetpolDeployment(platform.image, platform.kubeconfig, 1))
      ensures failed ==> Halted(old(trace), trace, true)
    {
      failed := PrepareDeployment();
      if failed { return; }
      failed := ApplyDeployment(DesiredDeployment(platform));
    }

    /** Patches the replicas to zero, if there is a Deployment at all. */
    method ScaleDown() returns (failed: bool)
      requires Valid()
      modifies this`w, this`calls, this`trace
      ensures Valid() && Within(old(trace), trace, {Seed}) && Runs(old(trace), trace, [GetDeployment, ScaleDeployment])
      ensures w.accessSecret == old(w).accessSecret
      ensures KeptOrScaled(old(w).deployment, w.deployment)
      ensures !failed ==> !CanRun(w)
      ensures failed ==> Halted(old(trace), trace, true)
    {
      failed := Do(GetDeployment);
      if failed || w.deployment.None? { return; }
      failed := Do(ScaleDeployment);
    }

    // ---- Cleaning up in the shoot ----

    /** Deletes one policy; an absent one is fine. */
    method RemovePolicy(k: Key) returns (failed: bool)
      requires Valid()
      modifies this`w, this`calls, this`trace
      ensures Valid() && Makes(old(trace), trace, DeletePolicy(k), !failed)
      ensures !failed ==> !Selected(Left(trace, |old(trace)|), k)
    {
      failed := Do(DeletePolicy(k));
    }

    /** Deletes the listed policies one by one, up to the first failure. */
    method DeletePolicies(listed: set<Key>) returns (failed: bool)
      requires Valid()
      modifies this`w, this`calls, this`trace
      ensures Valid() && PrunesOnly(old(trace), trace, listed)
      ensures !failed ==> forall k :: k in listed ==> SawUnselected(|old(trace)|, trace, k)
      ensures failed ==> Halted(old(trace), trace, true)
    {
      var left := listed;
      failed := false;
      while left != {}
        invariant left <= listed && !failed
        invariant Valid() && PrunesOnly(old(trace), trace, listed)
        invariant forall k :: k in listed && k !in left ==> SawUnselected(|old(trace)|, trace, k)
        decreases left
      {
        var k :| k in left;
        ghost var before := trace;
        failed := RemovePolicy(k);
        if failed { return; }
        SawLonger(|old(trace)|, |old(trace)|, before, trace);
        assert SawUnselected(|old(trace)|, trace, k);
        left := left - {k};
      }
    }

    /** Lists the controller's policies across the shoot. */
    method ListSelected() returns (failed: bool, items: set<Key>)
      requires Valid()
      modifies this`w, this`calls, this`trace
      ensures Valid() && Makes(old(trace), trace, ListPolicies, !failed)
      ensures !failed ==> forall k :: k in items <==> Selected(Met(trace, |old(trace)|), k)
    {
      failed := Do(ListPolicies);
      items := set k | k in w.shoot.policies && Selects(ManagedDataPlanePolicyListOptions(), w.shoot.policies[k].labels);
      forall k | k in w.shoot.policies
        ensures k in items <==> Selected(w, k)
      {
        PruneFindsPolicies(w.shoot.policies[k].labels);
      }
    }

    /** Deletes the controller's policies one by one. On success each policy of its
        kind was gone at some moment; and if no controller runs, none is left. */
    method PrunePolicies() returns (failed: bool)
      requires Valid()
      modifies this`w, this`calls, this`trace
      ensures Valid() && Within(old(trace), trace, {Policies}) && DeletesListed(old(trace), trace)
      ensures SparesRest(start, old(trace), trace)
      ensures !failed ==> forall k :: SawUnselected(|old(trace)|, trace, k)
      ensures !failed && Calm() && Stopped(old(w)) ==> Pruned(w)
      ensures failed ==> Halted(old(trace), trace, true)
      ensures !failed ==> forall k :: Selected(w, k) ==> PolicyPut(start, |old(trace)|, trace, k)
      ensures !failed && Calm() && Stopped(old(w)) ==> forall k :: k in w.shoot.policies ==> ForeignPolicy(w.shoot.policies[k].labels)
    {
      var items;
      failed, items := ListSelected();
      if failed {
        NoDeletions(old(trace), trace, {});
        DeletionsSpareRest(start, old(trace), trace);
        return;
      }
      ghost var listing := trace;
      failed := DeletePolicies(items);
      PruneIsJustified(old(trace), listing, trace, items);
      DeletionsSpareRest(start, old(trace), trace);
      if failed { return; }
      SawLonger(|listing|, |old(trace)|, trace, trace);
      AreasOf(old(trace), trace, {Policies});
      SchedulePasses(schedule, trace);
      forall k | Selected(w, k)
        ensures PolicyPut(start, |old(trace)|, trace, k)
      {
        LeftPolicyWasPut(start, |old(trace)|, trace, k);
      }
      if Calm() && Stopped(old(w)) {
        PruneEnds(start, |old(trace)|, trace);
        PrunedMeaning(w);
      }
    }

    /** Deletes one object; an absent one is fine. */
    method RemoveObject(k: ObjectKey) returns (failed: bool)
      requires Valid()
      modifies this`w, this`calls, this`trace
      ensures Valid() && Makes(old(trace), trace, DeleteObject(k), !failed)
      ensures !failed ==> !OrphanAt(Left(trace, |old(trace)|), k)
    {
      failed := Do(DeleteObject(k));
    }

    /** Deletes the orphans among the listed objects of one kind. */
    method DeleteListed(items: Objects) returns (failed: bool)
      requires Valid()
      modifies this`w, this`calls, this`trace
      ensures Valid() && SweepsOnly(old(trace), trace, items)
      ensures !failed ==> forall k :: k in items && IsOrphanedDataPlaneObject(items[k]) ==>
                SawNoOrphan(|old(trace)|, trace, k)
      ensures failed ==> CutOff(old(trace), trace)
    {
      var left := items.Keys;
      failed := false;
      while left != {}
        invariant left <= items.Keys && !failed
        invariant Valid() && SweepsOnly(old(trace), trace, items)
        invariant forall k :: k in items && k !in left && IsOrphanedDataPlaneObject(items[k]) ==>
                    SawNoOrphan(|old(trace)|, trace, k)
        decreases left
      {
        var k :| k in left;
        left := left - {k};
        if IsOrphanedDataPlaneObject(items[k]) {
          ghost var before := trace;
          failed := RemoveObject(k);
          if failed { return; }
          SawLonger(|old(trace)|, |old(trace)|, before, trace);
          assert SawNoOrphan(|old(trace)|, trace, k);
        }
      }
    }

    /** Lists one kind in kube-system, by the managed-by label. */
    method ListKind(kind: Kind) returns (failed: bool, items: Objects)
      requires Valid()
      modifies this`w, this`calls, this`trace
      ensures Valid() && Makes(old(trace), trace, ListObjects(kind), !failed)
      ensures !failed ==> IsListing(Met(trace, |old(trace)|).objects, kind, items)
    {
      failed := Do(ListObjects(kind));
      items := map k | k in w.objects && k.kind == kind && SweepLists(k, w.objects[k]) :: w.objects[k];
    }

    /** Lists one kind and deletes the orphans found. */
    method SweepKind(kind: Kind) returns (failed: bool)
      requires Valid() && !kind.OtherKind?
      modifies this`w, this`calls, this`trace
      ensures Valid() && Within(old(trace), trace, {Sweep}) && DeletesListed(old(trace), trace)
      ensures |trace| > |old(trace)|
      ensures !failed ==> forall k: ObjectKey :: k.kind == kind ==> SawNoOrphan(|old(trace)|, trace, k)
      ensures failed ==> CutOff(old(trace), trace)
    {
      var items;
      failed, items := ListKind(kind);
      if failed { return; }
      ghost var listing := trace;
      failed := DeleteListed(items);
      SweepIsJustified(old(trace), listing, trace, kind, items);
      if failed { return; }
      SawLonger(|listing|, |old(trace)|, trace, trace);
    }

    /** Deletes the orphaned data-plane objects from kube-system, kind by kind. On
        success every orphan was gone at some moment; and if nobody makes new
        ones, none is left. */
    method SweepOrphans() returns (failed: bool)
      requires Valid()
      modifies this`w, this`calls, this`trace
      ensures Valid() && Within(old(trace), trace, {Sweep}) && DeletesListed(old(trace), trace)
      ensures SparesRest(start, old(trace), trace)
      ensures !failed ==> forall k :: SawNoOrphan(|old(trace)|, trace, k)
      ensures !failed && Clean() ==> NoOrphans(w.objects)
      ensures failed ==> CutOff(old(trace), trace)
      ensures !failed ==> forall k :: OrphanAt(w, k) ==> OrphanPut(start, |old(trace)|, trace, k)
      ensures !failed && Clean() ==> forall k :: k in w.objects ==> Foreign(k, w.objects[k])
    {
      var i := 0;
      failed := false;
      while i < |SWEPT_KINDS|
        invariant 0 <= i <= |SWEPT_KINDS| && !failed && (i > 0 ==> |trace| > |old(trace)|)
        invariant Valid() && Within(old(trace), trace, {Sweep}) && DeletesListed(old(trace), trace)
        invariant forall k: ObjectKey :: k.kind in SWEPT_KINDS[..i] ==> SawNoOrphan(|old(trace)|, trace, k)
      {
        ghost var before := trace;
        failed := SweepKind(SWEPT_KINDS[i]);
        DeletesListedTransitive(old(trace), before, trace);
        if failed {
          DeletionsSpareRest(start, old(trace), trace);
          return;
        }
        SawLonger(|old(trace)|, |old(trace)|, before, trace);
        SawLonger(|before|, |old(trace)|, trace, trace);
        assert SWEPT_KINDS[..i + 1] == SWEPT_KINDS[..i] + [SWEPT_KINDS[i]];
        i := i + 1;
      }
      assert SWEPT_KINDS[..i] == SWEPT_KINDS;
      AllKindsSwept(|old(trace)|, trace, SWEPT_KINDS);
      DeletionsSpareRest(start, old(trace), trace);
      AreasOf(old(trace), trace, {Sweep});
      SchedulePasses(schedule, trace);
      forall k | OrphanAt(w, k)
        ensures OrphanPut(start, |old(trace)|, trace, k)
      {
        LeftOrphanWasPut(start, |old(trace)|, trace, k);
      }
      if Clean() {
        SweepEnds(start, |old(trace)|, trace);
        NoOrphansMeaning(w.objects);
      }
    }

    // ---- The ManagedResource ----

    /** Deletes the ManagedResource and waits until it is gone. */
    method DeleteManagedResource() returns (failed: bool)
      requires Valid()
      modifies this`w, this`calls, this`trace
      ensures Valid() && Within(old(trace), trace, {Retire}) && Runs(old(trace), trace, [DeleteResource, AwaitResource])
      ensures w.deployment == old(w).deployment && w.accessSecret == old(w).accessSecret
      ensures !failed ==> Completes(old(trace), trace, [DeleteResource, AwaitResource]) && w.resource.None?
      ensures failed ==> Halted(old(trace), trace, true) || StuckAtWait(old(trace), trace, w)
    {
      failed := Aside(DeleteResource);
      if failed { return; }
      ghost var deleted := trace;
      failed := Aside(AwaitResource);
      TwoCalls(old(trace), deleted, trace, DeleteResource, AwaitResource, !failed, {Retire});
      failed := failed || w.resource.Some?;
    }

    /** Sets the keep flag, and only then deletes the ManagedResource. */
    method DeleteKeepingObjects() returns (failed: bool)
      requires Valid()
      modifies this`w, this`calls, this`trace
      ensures Valid() && Within(old(trace), trace, {Flag, Retire}) && Runs(old(trace), trace, KEEPING)
      ensures w.deployment == old(w).deployment && w.accessSecret == old(w).accessSecret
      ensures !failed ==> Completes(old(trace), trace, KEEPING) && w.resource.None?
      ensures failed ==> Halted(old(trace), trace, true) || StuckAtWait(old(trace), trace, w)
    {
      failed := Aside(KeepObjects);
      if failed { return; }
      ghost var flagged := trace;
      failed := DeleteManagedResource();
      FlagThenDelete(old(trace), flagged, trace);
    }

    // ---- Gateways in the shoot ----

    /** Requests the deletion of one Gateway; an absent one is fine. */
    method RemoveGateway(k: Key) returns (failed: bool)
      requires Valid()
      modifies this`w, this`calls, this`trace
      ensures Valid() && Makes(old(trace), trace, DeleteGateway(k), !failed)
      ensures !failed ==> Doomed(Left(trace, |old(trace)|), k)
    {
      failed := Do(DeleteGateway(k));
    }

    /** Lists the Gateways that are not going yet. */
    method ListStaying() returns (failed: bool, staying: set<Key>)
      requires Valid()
      modifies this`w, this`calls, this`trace
      ensures Valid() && Makes(old(trace), trace, ListGateways, !failed)
      ensures forall k :: k !in staying ==> Doomed(Left(trace, |old(trace)|), k)
      ensures !failed ==> forall k :: k in staying ==> ListedGateway(trace, |old(trace)|, k)
    {
      failed := Do(ListGateways);
      staying := w.shoot.gateways.Keys - w.terminating;
    }

    /** Asks the listed Gateways to go, one by one, up to the first failure. */
    method AskToGo(listed: set<Key>) returns (failed: bool)
      requires Valid()
      modifies this`w, this`calls, this`trace
      ensures Valid() && AsksOnly(old(trace), trace, listed)
      ensures !failed ==> forall k :: k in listed ==> SawDoomed(|old(trace)|, trace, k)
      ensures failed ==> CutOff(old(trace), trace)
    {
      var left := listed;
      failed := false;
      while left != {}
        invariant left <= listed && !failed && Valid() && AsksOnly(old(trace), trace, listed)
        invariant forall k :: k in listed && k !in left ==> SawDoomed(|old(trace)|, trace, k)
        decreases left
      {
        var k :| k in left;
        ghost var before := trace;
        failed := RemoveGateway(k);
        if failed { return; }
        SawDoomedLonger(|old(trace)|, before, trace);
        assert SawDoomed(|old(trace)|, trace, k);
        left := left - {k};
      }
    }

    /** Requests the deletion of every Gateway that is not going yet; they vanish
        at their own pace. On success every Gateway was gone or on its way out. */
    method DeleteGateways() returns (failed: bool)
      requires Valid()
      modifies this`w, this`calls, this`trace
      ensures Valid() && Within(old(trace), trace, {Gateways})
      ensures !failed ==> forall k :: SawDoomed(|old(trace)|, trace, k)
      ensures failed ==> CutOff(old(trace), trace)
      ensures DeletesListed(old(trace), trace)
    {
      var staying;
      failed, staying := ListStaying();
      if failed {
        NoDeletions(old(trace), trace, {});
        return;
      }
      ghost var listing := trace;
      failed := AskToGo(staying);
      AllDoomed(old(trace), listing, trace, staying);
      AskingIsJustified(old(trace), listing, trace, staying);
    }

    /** One poll for remaining Gateways. */
    method PollOnce() returns (poll: Poll)
      requires Valid()
      modifies this`w, this`calls, this`trace
      ensures Valid() && Makes(old(trace), trace, PollGateways, poll != Unreachable) && poll == PollOf(trace, |old(trace)|)
      ensures poll == Empty ==> w.shoot.gateways == map[]
    {
      var failed := Do(PollGateways);
      poll := if failed then Unreachable else if w.shoot.gateways == map[] then Empty else Remaining;
    }

    /** Polls until no Gateway remains or the deadline is reached. Still deleting
        is reported exactly if no poll came back empty and the last one could
        reach the API server. */
    method WaitUntilGatewaysDeleted(deadline: nat) returns (r: WaitResult, polls: seq<Poll>)
      requires Valid()
      modifies this`w, this`calls, this`trace
      ensures Valid() && ArePolls(old(trace), trace, polls) && |polls| <= deadline
      ensures r == WaitVerdict(polls)
      ensures r.Drained? ==> polls[|polls| - 1] == Empty && w.shoot.gateways == map[]
      ensures !r.Drained? ==> |polls| == deadline
    {
      polls := [];
      var unreachable := false;
      while |polls| < deadline
        invariant Valid() && ArePolls(old(trace), trace, polls) && |polls| <= deadline && Empty !in polls
        invariant unreachable == (polls != [] && polls[|polls| - 1] == Unreachable)
      {
        ghost var before := trace;
        var poll := PollOnce();
        PollsAppend(old(trace), before, trace, polls, poll);
        polls := polls + [poll];
        unreachable := poll == Unreachable;
        if poll == Empty {
          assert polls[|polls| - 1] == Empty;
          return Drained, polls;
        }
      }
      r := if unreachable then GaveUp else StillDeleting;
    }

    /** Waits for the Gateways to go, then clears the leftover finalizer. */
    method AwaitDrain(deadline: nat) returns (draining: bool)
      requires Valid()
      modifies this`w, this`calls, this`trace
      ensures Valid() && Within(old(trace), trace, {Gateways})
      ensures !draining ==> Permitted(|old(trace)|, trace, |trace|, true)
      ensures draining ==> StillRemain(old(trace), trace, deadline)
      ensures DeletesListed(old(trace), trace)
    {
      var verdict, polls := WaitUntilGatewaysDeleted(deadline);
      if verdict.StillDeleting? { return true; }
      ghost var waited := trace;
      var _ := Aside(ClearFinalizer);
      PollsLonger(waited, trace);
      assert polls[|polls| - 1] != Remaining;
      assert Permits(trace, |waited| - 1, true);
      draining := false;
    }

    /** Drains the user's Gateways while the shoot is being deleted. Failures are
        tolerated, except that Gateways are still there. */
    method DrainUserGateways(deadline: nat) returns (draining: bool)
      requires Valid()
      modifies this`w, this`calls, this`trace
      ensures Valid() && Within(old(trace), trace, {Gateways})
      ensures !draining ==> Permitted(|old(trace)|, trace, |trace|, true)
      ensures draining ==> StillRemain(old(trace), trace, deadline)
      ensures Asked(old(trace), trace)
      ensures DeletesListed(old(trace), trace)
    {
      var _ := Aside(ListGateways);
      ghost var listed := trace;
      NoDeletions(old(trace), listed, {});
      var failed := DeleteGateways();
      ghost var asked := trace;
      assert Asked(listed, asked);
      draining := AwaitDrain(deadline);
      AskedLonger(old(trace), listed, asked, trace);
      DeletesListedTransitive(listed, asked, trace);
      DeletesListedTransitive(old(trace), listed, trace);
      if !draining { PermittedLonger(|asked|, |old(trace)|, trace, trace, |trace|, true); }
    }

    /** The guard before a delete: refuses while a live shoot has Gateways. */
    method CheckNoUserGateways(req: Request) returns (err: Option<Failure>)
      requires Valid()
      modifies this`w, this`calls, this`trace
      ensures Valid()
      ensures err.None? ==> Permitted(|old(trace)|, trace, |trace|, req.deleting)
      ensures !req.deleting ==> Makes(old(trace), trace, ListGateways, err != Some(GatewaysUnknown))
      ensures err == Some(GatewaysInUse) ==>
                !req.deleting && trace[|old(trace)|].outcome.Answered? && w.shoot.gateways != map[]
      ensures !req.deleting ==>
                (err.None? <==> trace[|old(trace)|].outcome.Answered? && Met(trace, |old(trace)|).shoot.gateways == map[])
      ensures err in {None, Some(GatewaysInUse), Some(GatewaysUnknown), Some(GatewaysDraining)}
      ensures err.Some? && err != Some(GatewaysDraining) ==> !req.deleting
      ensures err.Some? ==> GuardExcuse(old(trace), trace, w, err.value, req)
      ensures Within(old(trace), trace, if req.deleting then {Gateways} else {})
      ensures req.deleting ==> Asked(old(trace), trace)
      ensures DeletesListed(old(trace), trace)
    {
      if req.deleting {
        var draining := DrainUserGateways(req.polls);
        return if draining then Some(GatewaysDraining) else None;
      }
      var failed := Do(ListGateways);
      if failed { return Some(GatewaysUnknown); }
      if w.shoot.gateways == map[] {
        assert Permits(trace, |old(trace)|, false);
        return None;
      }
      return Some(GatewaysInUse);
    }

    // ---- Operations ----

    /** The configuration switches the data-plane policy controller on. */
    predicate Enables(req: Request) {
      req.Live() && ActuatorAccepts(decode, req.raw) && Effective(decode, req.raw, req.version).manageDataPlaneNetworkPolicies
    }

    /** Generates the certificates. */
    method WriteCertificates() returns (failed: bool)
      requires Valid()
      modifies this`w, this`calls, this`trace
      ensures Valid() && Makes(old(trace), trace, WriteSecrets, !failed)
      ensures w.deployment == old(w).deployment && w.accessSecret == old(w).accessSecret
      ensures !failed ==> w.certificates
    {
      failed := Aside(WriteSecrets);
    }

    /** Creates or updates the ManagedResource. */
    method PutBundle(bundle: Objects) returns (failed: bool)
      requires Valid() && NoOrphans(bundle) && w.certificates
      modifies this`w, this`calls, this`trace
      ensures Valid() && Makes(old(trace), trace, WriteResource(bundle), !failed)
      ensures w.deployment == old(w).deployment && w.accessSecret == old(w).accessSecret
      ensures w.certificates && Met(trace, |old(trace)|).certificates
    {
      failed := Aside(WriteResource(bundle));
    }

    /** Certificates and the bundle. */
    method WriteBundle(bundle: Objects) returns (err: Option<Failure>, ghost write: nat)
      requires Valid() && NoOrphans(bundle)
      modifies this`w, this`calls, this`trace
      ensures Valid() && Delivery(old(trace), trace, {Certs, Deliver}, bundle)
      ensures w.deployment == old(w).deployment && w.accessSecret == old(w).accessSecret
      ensures err.None? ==> WritesOnce(old(trace), trace, write, bundle) && w.certificates
      ensures err in {None, Some(SecretsFailed), Some(ResourceFailed)} && (err.Some? ==> Halted(old(trace), trace, true))
    {
      var failed := WriteCertificates();
      ghost var certified := trace;
      write := |trace|;
      if failed {
        NoDeletions(old(trace), trace, {Certs});
        NoDelivery(old(trace), trace, {Certs}, bundle);
        return Some(SecretsFailed), 0;
      }
      failed := PutBundle(bundle);
      BundleWritten(old(trace), certified, trace, bundle, !failed);
      err := if failed then Some(ResourceFailed) else None;
    }

    /** Certificates, the bundle, and the sweep, whose failure is tolerated. */
    method DeployBundle(bundle: Objects) returns (err: Option<Failure>, swept: bool, ghost write: nat)
      requires Valid() && NoOrphans(bundle)
      modifies this`w, this`calls, this`trace
      ensures Valid() && Delivery(old(trace), trace, {Certs, Deliver, Sweep}, bundle)
      ensures w.deployment == old(w).deployment && w.accessSecret == old(w).accessSecret
      ensures err.None? ==> WritesOnce(old(trace), trace, write, bundle)
      ensures err.None? && swept && Clean() ==> NoOrphans(w.objects)
      ensures err != Some(InvalidConfig)
      ensures err.Some? ==> Halted(old(trace), trace, true)
      ensures err.None? && !swept ==> CutOff(old(trace), trace)
      ensures err.None? ==> w.certificates
      ensures err.Some? ==> Within(old(trace), trace, {Certs, Deliver})
    {
      swept := false;
      err, write := WriteBundle(bundle);
      if err.Some? { return; }
      ghost var written := trace;
      var failed := SweepOrphans();
      NoDelivery(written, trace, {Sweep}, bundle);
      DeliveryOn(old(trace), written, trace, {Certs, Deliver}, {Sweep}, {Certs, Deliver, Sweep}, bundle);
      WritesOnceLonger(old(trace), written, trace, write, bundle, {Sweep});
      SeedStaysWithin(start, written, trace, {Sweep});
      CertificatesStayWithin(start, written, trace, {Sweep});
      swept := !failed;
    }

    /** Ensures the controller, or removes it and then its policies. */
    method SwitchNetpol(enabled: bool) returns (err: Option<Failure>)
      requires Valid()
      modifies this`w, this`calls, this`trace
      ensures Valid() && Within(old(trace), trace, NetpolAreas(enabled))
      ensures DeletesListed(old(trace), trace)
      ensures enabled && old(w).accessSecret ==> w.accessSecret
      ensures err.None? ==> NetpolSwitched(w, platform, enabled)
      ensures err.None? && !enabled && Calm() ==> Pruned(w)
      ensures err in {None, Some(NetpolFailed), Some(PruneFailed)}
      ensures err.Some? ==> Halted(old(trace), trace, true)
    {
      var failed;
      if enabled {
        failed := Ensure();
        NoDeletions(old(trace), trace, {Seed, Start});
        return if failed then Some(NetpolFailed) else None;
      }
      failed := Teardown();
      NoDeletions(old(trace), trace, {Seed});
      if failed { return Some(NetpolFailed); }
      ghost var tornDown := trace;
      failed := PrunePolicies();
      DeletesListedTransitive(old(trace), tornDown, trace);
      SeedStaysWithin(start, tornDown, trace, {Policies});
      return if failed then Some(PruneFailed) else None;
    }

    /** The bundle, the sweep, and the controller switched on or off. */
    method ReconcileLive(bundle: Objects, enabled: bool) returns (err: Option<Failure>, swept: bool, ghost write: nat)
      requires Valid() && NoOrphans(bundle)
      modifies this`w, this`calls, this`trace
      ensures Valid() && Delivery(old(trace), trace, DeliveryAreas(enabled), bundle)
      ensures err.None? ==> WritesOnce(old(trace), trace, write, bundle) && NetpolSwitched(w, platform, enabled) && w.certificates
      ensures err.None? && swept && Clean() ==> NoOrphans(w.objects)
      ensures err.None? && !enabled && Calm() ==> Pruned(w)
      ensures enabled && old(w).accessSecret ==> w.accessSecret
      ensures err != Some(InvalidConfig) && (err.Some? ==> Halted(old(trace), trace, true))
      ensures err.None? && !swept ==> Unanswered(old(trace), trace)
      ensures Undelivered(err) ==> Within(old(trace), trace, {Certs, Deliver})
    {
      err, swept, write := DeployBundle(bundle);
      ghost var deployed := trace;
      if err.Some? {
        DeliveryOn(old(trace), old(trace), trace, {}, {Certs, Deliver, Sweep}, DeliveryAreas(enabled), bundle);
        return;
      }
      err := SwitchNetpol(enabled);
      DeliveredAndSwitched(start, old(trace), deployed, trace, enabled, write, bundle);
      if !swept { UnansweredLonger(old(trace), old(trace), deployed, trace); }
      if swept && Clean() { StillSwept(deployed, NetpolAreas(enabled)); }
    }

    lemma StillSwept(before: seq<Step>, areas: set<Area>)
      requires Valid() && Clean() && Within(before, trace, areas) && Deliver !in areas
      requires TidyBundle(At(start, before, |before|)) && NoOrphans(At(start, before, |before|).objects)
      ensures NoOrphans(w.objects)
    {
      AreasOf(before, trace, areas);
      SchedulePasses(schedule, trace);
      StaysSwept(start, trace, |before|, |trace|);
    }

    /** Reconciles the extension. A rejected configuration makes no call but the
        read of the Cluster. A complete run on a live shoot leaves the state that
        the request asks for, if and only if the ManagedResource was not in
        deletion, or a sync completed that deletion before the write. Wherever the run
        ends, it touched what its request calls for, Gateways only while the shoot is
        being deleted, and it failed for one of the stated reasons. */
    method Reconcile(req: Request) returns (err: Option<Failure>, swept: bool, ghost write: nat)
      requires Valid()
      modifies this`w, this`calls, this`trace
      ensures Valid() && Within(old(trace), trace, Touches(req)) && DeletesListed(old(trace), trace)
      ensures req.Live() && !ActuatorAccepts(decode, req.raw) ==>
                err.Some? && |trace| == |old(trace)| + 1 && Issues(old(trace), trace, [GetCluster]) && OnlyOthers(start, old(trace), trace)
      ensures err == Some(InvalidConfig) ==> !ActuatorAccepts(decode, req.raw)
      ensures req.Live() && ActuatorAccepts(decode, req.raw) ==> DeliversOnly(old(trace), trace, BundleFor(req))
      ensures err.None? && req.Live() ==>
                && ActuatorAccepts(decode, req.raw) && TakesHold(start, old(trace), trace, write, BundleFor(req))
                && NetpolConverged(w, platform, Effective(decode, req.raw, req.version))
      ensures err.None? && req.Live() && swept && Clean() ==> NoOrphans(w.objects)
      ensures err.None? && req.Live() && !Enables(req) && Calm() ==> Pruned(w)
      ensures err.None? && req.hibernated && !req.deleting ==> !CanRun(w)
      ensures req.hibernated || Enables(req) ==> (old(w).accessSecret ==> w.accessSecret)
      ensures err.Some? ==> ReconcileExcuse(old(trace), trace, err.value, req, ActuatorAccepts(decode, req.raw))
      ensures err.None? && req.Live() && !swept ==> Unanswered(old(trace), trace)
      ensures err.None? && req.deleting ==> Permitted(|old(trace)|, trace, |trace|, true)
      ensures req.deleting ==> Asked(old(trace), trace)
      ensures err.None? && req.Live() ==> w.certificates && Met(trace, write).certificates
      ensures req.hibernated && !req.deleting ==>
                w.accessSecret == old(w).accessSecret && KeptOrScaled(old(w).deployment, w.deployment)
      ensures Undelivered(err) ==> Within(old(trace), trace, {Certs, Deliver})
    {
      swept, write := false, 0;
      var failed := Aside(GetCluster);
      ghost var bundle := if ActuatorAccepts(decode, req.raw) then BundleFor(req) else map[];
      OneRead(start, old(trace), trace, GetCluster, !failed, bundle);
      if failed {
        WithinOn(old(trace), trace, trace, {}, {}, Touches(req));
        return Some(ClusterUnavailable), false, 0;
      }
      if req.Live() {
        err, swept, write := ReconcileConfigured(req, old(trace));
      } else {
        err := ReconcileIdle(req, old(trace));
      }
    }

    /** The areas a reconciliation touches: Gateways only while the shoot is being
        deleted, the seed alone while it hibernates, nothing if the configuration is
        rejected. */
    function Touches(req: Request): set<Area> {
      if req.deleting then {Gateways}
      else if req.hibernated then {Seed}
      else if !ActuatorAccepts(decode, req.raw) then {}
      else DeliveryAreas(Enables(req))
    }

    /** The bundle an accepted configuration asks for. */
    function BundleFor(req: Request): Objects
      requires ActuatorAccepts(decode, req.raw)
    {
      Bundle(platform, Effective(decode, req.raw, req.version))
    }

    /** The reconciliation of a shoot in deletion or hibernation. */
    method ReconcileIdle(req: Request, ghost before: seq<Step>) returns (err: Option<Failure>)
      requires Valid() && !req.Live() && Within(before, trace, {}) && DeletesListed(before, trace)
      modifies this`w, this`calls, this`trace
      ensures Valid() && Within(before, trace, Touches(req)) && DeletesListed(before, trace)
      ensures err != Some(InvalidConfig)
      ensures err.None? && req.hibernated && !req.deleting ==> !CanRun(w)
      ensures old(w).accessSecret ==> w.accessSecret
      ensures err.Some? ==> ReconcileExcuse(before, trace, err.value, req, ActuatorAccepts(decode, req.raw))
      ensures err.None? && req.deleting ==> Permitted(|before|, trace, |trace|, true)
      ensures req.deleting ==> Asked(before, trace)
      ensures req.hibernated && !req.deleting ==>
                w.accessSecret == old(w).accessSecret && KeptOrScaled(old(w).deployment, w.deployment)
      ensures !Undelivered(err)
    {
      if req.deleting {
        var draining := DrainUserGateways(req.polls);
        SeedStaysWithin(start, old(trace), trace, {Gateways});
        WithinOn(before, old(trace), trace, {}, {Gateways}, {Gateways});
        AskedLonger(before, old(trace), trace, trace);
        if !draining { PermittedLonger(|old(trace)|, |before|, trace, trace, |trace|, true); }
        err := if draining then Some(GatewaysDraining) else None;
      } else {
        var failed := ScaleDown();
        NoDeletions(old(trace), trace, {Seed});
        WithinOn(before, old(trace), trace, {}, {Seed}, {Seed});
        err := if failed then Some(NetpolFailed) else None;
      }
      DeletesListedTransitive(before, old(trace), trace);
    }

    /** The reconciliation of a live shoot, once its Cluster is known. */
    method ReconcileConfigured(req: Request, ghost before: seq<Step>)
      returns (err: Option<Failure>, swept: bool, ghost write: nat)
      requires Valid() && req.Live() && Makes(before, trace, GetCluster, true)
      modifies this`w, this`calls, this`trace
      ensures Valid() && Within(before, trace, Touches(req)) && DeletesListed(before, trace)
      ensures !ActuatorAccepts(decode, req.raw) ==>
                err == Some(InvalidConfig) && |trace| == |before| + 1 && Issues(before, trace, [GetCluster]) && OnlyOthers(start, before, trace)
      ensures ActuatorAccepts(decode, req.raw) ==> err != Some(InvalidConfig) && DeliversOnly(before, trace, BundleFor(req))
      ensures err.None? ==>
                && ActuatorAccepts(decode, req.raw) && TakesHold(start, before, trace, write, BundleFor(req))
                && NetpolConverged(w, platform, Effective(decode, req.raw, req.version))
      ensures err.None? && swept && Clean() ==> NoOrphans(w.objects)
      ensures err.None? && !Enables(req) && Calm() ==> Pruned(w)
      ensures Enables(req) ==> (old(w).accessSecret ==> w.accessSecret)
      ensures err.Some? && err != Some(InvalidConfig) ==> Halted(before, trace, true)
      ensures err.None? && !swept ==> Unanswered(before, trace)
      ensures err.None? ==> w.certificates
      ensures Undelivered(err) ==> Within(before, trace, {Certs, Deliver})
    {
      var ok, cfg := ReadConfig(decode, req.raw, req.version);
      if !ok {
        OneRead(start, before, trace, GetCluster, true, map[]);
        return Some(InvalidConfig), false, 0;
      }
      err, swept, write := ReconcileAccepted(cfg, before);
    }

    /** The same, with its configuration accepted. */
    method ReconcileAccepted(cfg: Config, ghost before: seq<Step>) returns (err: Option<Failure>, swept: bool, ghost write: nat)
      requires Valid() && Makes(before, trace, GetCluster, true)
      modifies this`w, this`calls, this`trace
      ensures Valid() && Delivery(before, trace, DeliveryAreas(cfg.manageDataPlaneNetworkPolicies), Bundle(platform, cfg))
      ensures err.None? ==> TakesHold(start, before, trace, write, Bundle(platform, cfg)) && NetpolConverged(w, platform, cfg)
      ensures err.None? && swept && Clean() ==> NoOrphans(w.objects)
      ensures err.None? && !cfg.manageDataPlaneNetworkPolicies && Calm() ==> Pruned(w)
      ensures cfg.manageDataPlaneNetworkPolicies && old(w).accessSecret ==> w.accessSecret
      ensures err != Some(InvalidConfig) && (err.Some? ==> Halted(before, trace, true))
      ensures err.None? && !swept ==> Unanswered(before, trace)
      ensures err.None? ==> w.certificates
      ensures Undelivered(err) ==> Within(before, trace, {Certs, Deliver})
    {
      ghost var bundle, areas := Bundle(platform, cfg), DeliveryAreas(cfg.manageDataPlaneNetworkPolicies);
      BundleIsNeverSwept(platform, cfg);
      err, swept, write := ReconcileLive(Bundle(platform, cfg), cfg.manageDataPlaneNetworkPolicies);
      if err.None? && !swept { UnansweredLonger(before, old(trace), trace, trace); }
      AfterRead(start, before, old(trace), trace, areas, bundle);
    }

    /** Everything a delete does after its guard let it pass. */
    method RemoveExtension(req: Request) returns (err: Option<Failure>)
      requires Valid()
      modifies this`w, this`calls, this`trace
      ensures Valid() && Within(old(trace), trace, DeleteAreas(req) - {Gateways}) && DeletesListed(old(trace), trace)
      ensures err !in {Some(GatewaysInUse), Some(ClusterUnavailable), Some(GatewaysUnknown)}
      ensures err.None? ==> Retired(w) && !w.certificates
      ensures err.None? && !req.deleting && !req.shootless && Calm() ==> Pruned(w)
      ensures err.Some? ==> Halted(old(trace), trace, true) || (err == Some(ResourceFailed) && StuckAtWait(old(trace), trace, w))
      ensures TornDownFirst(old(trace), trace)
    {
      err := RemoveController(!req.shootless && !req.deleting);
      ghost var cleared := trace;
      ghost var first: set<Area> := {Seed} + if req.shootless || req.deleting then {} else {Policies};
      if err.Some? {
        WithinOn(old(trace), trace, trace, first, {}, DeleteAreas(req) - {Gateways});
        NoRetirement(old(trace), trace, first);
        return;
      }
      err := RemoveResources();
      NoDeletions(cleared, trace, {Certs, Retire});
      DeletesListedTransitive(old(trace), cleared, trace);
      WithinOn(old(trace), cleared, trace, first, {Certs, Retire}, DeleteAreas(req) - {Gateways});
      RetiredAfterTeardown(start, old(trace), cleared, trace, first, {Certs, Retire});
      if Calm() { NoNewWithin(cleared, {Certs, Retire}); }
    }

    /** The controller goes first, then its policies, on a live shoot. */
    method RemoveController(prune: bool) returns (err: Option<Failure>)
      requires Valid()
      modifies this`w, this`calls, this`trace
      ensures Valid() && Within(old(trace), trace, {Seed} + if prune then {Policies} else {}) && DeletesListed(old(trace), trace)
      ensures err in {None, Some(NetpolFailed), Some(PruneFailed)} && (err.Some? ==> Halted(old(trace), trace, true))
      ensures err.None? ==> w.deployment.None? && !w.accessSecret && (prune && Calm() ==> Pruned(w))
    {
      if prune {
        err := SwitchNetpol(false);
        return;
      }
      var failed := Teardown();
      NoDeletions(old(trace), trace, {Seed});
      err := if failed then Some(NetpolFailed) else None;
    }

    /** The ManagedResource, then the certificates. */
    method RemoveResources() returns (err: Option<Failure>)
      requires Valid()
      modifies this`w, this`calls, this`trace
      ensures Valid() && Within(old(trace), trace, {Certs, Retire})
      ensures err in {None, Some(ResourceFailed), Some(SecretsFailed)}
      ensures err.Some? ==> Halted(old(trace), trace, true) || (err == Some(ResourceFailed) && StuckAtWait(old(trace), trace, w))
      ensures w.deployment == old(w).deployment && w.accessSecret == old(w).accessSecret
      ensures err.None? ==> w.resource.None? && !w.certificates
    {
      var failed := DeleteManagedResource();
      if failed { return Some(ResourceFailed); }
      failed := Aside(DeleteSecrets);
      err := if failed then Some(SecretsFailed) else None;
    }

    /** Without a new Deployment, nothing but the controller brings policies. */
    lemma NoNewWithin(before: seq<Step>, areas: set<Area>)
      requires Valid() && Calm() && Within(before, trace, areas) && Start !in areas
      ensures NoNewPolicies(At(start, before, |before|), w)
    {
      AreasOf(before, trace, areas);
      SchedulePasses(schedule, trace);
      StoppedStays(start, trace, |before|, |trace|);
    }

    /** The read of the Cluster and the guard. */
    method GuardDelete(req: Request) returns (err: Option<Failure>)
      requires Valid()
      modifies this`w, this`calls, this`trace
      ensures Valid() && Within(old(trace), trace, if req.deleting then {Gateways} else {})
      ensures err.None? ==> Permitted(|old(trace)|, trace, |trace|, req.deleting)
      ensures err == Some(GatewaysInUse) ==>
                && !req.deleting && w.shoot.gateways != map[]
                && Completes(old(trace), trace, [GetCluster, ListGateways]) && OnlyOthers(start, old(trace), trace)
      ensures err in {Some(ClusterUnavailable), Some(GatewaysUnknown)} ==> OnlyOthers(start, old(trace), trace)
      ensures err.Some? ==> GuardExcuse(old(trace), trace, w, err.value, req)
      ensures req.deleting ==> Asked(old(trace), trace)
      ensures |trace| > |old(trace)|
      ensures DeletesListed(old(trace), trace)
    {
      var failed := Aside(GetCluster);
      if failed {
        OneRead(start, old(trace), trace, GetCluster, false, map[]);
        return Some(ClusterUnavailable);
      }
      ghost var known := trace;
      NoDeletions(old(trace), known, {});
      err := CheckNoUserGateways(req);
      DeletesListedTransitive(old(trace), known, trace);
      if err.None? { PermittedLonger(|known|, |old(trace)|, trace, trace, |trace|, req.deleting); }
      if req.deleting { AskedLonger(old(trace), known, trace, trace); }
      if !req.deleting { TwoReads(start, old(trace), known, trace, err != Some(GatewaysUnknown)); }
    }

    /** The calls of a delete: the guard up to `checked`, then the removal. */
    method DeleteGuarded(req: Request) returns (err: Option<Failure>, ghost checked: seq<Step>)
      requires Valid()
      modifies this`w, this`calls, this`trace
      ensures Valid() && Within(old(trace), trace, DeleteAreas(req)) && DeletesListed(old(trace), trace)
      ensures |old(trace)| < |checked| && checked <= trace && Within(old(trace), checked, {Gateways})
      ensures checked == trace || Permitted(|old(trace)|, checked, |checked|, req.deleting)
      ensures err == Some(GatewaysInUse) ==>
                && !req.deleting && w.shoot.gateways != map[]
                && Completes(old(trace), trace, [GetCluster, ListGateways]) && OnlyOthers(start, old(trace), trace)
      ensures err.None? ==> Retired(w) && !w.certificates
      ensures err.None? && !req.deleting && !req.shootless && Calm() ==> Pruned(w)
      ensures err in {Some(ClusterUnavailable), Some(GatewaysUnknown)} ==> OnlyOthers(start, old(trace), trace)
      ensures err.Some? ==> DeleteExcuse(old(trace), trace, w, err.value, req)
      ensures req.deleting ==> Asked(old(trace), checked)
      ensures TornDownFirst(old(trace), trace)
    {
      err := GuardDelete(req);
      checked := trace;
      ghost var gateways: set<Area> := if req.deleting then {Gateways} else {};
      NoRetirement(old(trace), checked, gateways);
      if err.Some? {
        WithinOn(old(trace), checked, checked, gateways, {}, DeleteAreas(req));
        return;
      }
      err := RemoveExtension(req);
      DeletesListedTransitive(old(trace), checked, trace);
      WithinOn(old(trace), checked, trace, gateways, DeleteAreas(req) - {Gateways}, DeleteAreas(req));
    }

    /** Deletes the extension. The ManagedResource is deleted, and so comes to be in
        deletion, only after a finding of this operation that permits it; a
        refusal on a live shoot made no call but two reads. What the ManagedResource
        applied goes with it. */
    method Delete(req: Request) returns (err: Option<Failure>)
      requires Valid()
      modifies this`w, this`calls, this`trace
      ensures Valid() && Within(old(trace), trace, DeleteAreas(req)) && DeletesListed(old(trace), trace)
      ensures |trace| > |old(trace)| && DeletedWhenPermitted(start, old(trace), trace, req.deleting)
      ensures err == Some(GatewaysInUse) ==>
                && !req.deleting && w.shoot.gateways != map[]
                && Completes(old(trace), trace, [GetCluster, ListGateways]) && OnlyOthers(start, old(trace), trace)
      ensures err.None? ==> Retired(w) && !w.certificates
      ensures err.None? ==> forall k :: LeftToSync(old(trace), trace, k) && Leaving(old(w), k) ==> k !in w.objects
      ensures err.None? && !req.deleting && !req.shootless && Calm() ==> Pruned(w)
      ensures err in {Some(ClusterUnavailable), Some(GatewaysUnknown)} ==> OnlyOthers(start, old(trace), trace)
      ensures err.Some? ==> DeleteExcuse(old(trace), trace, w, err.value, req)
      ensures req.deleting ==> Asked(old(trace), trace)
      ensures TornDownFirst(old(trace), trace)
    {
      ghost var checked;
      err, checked := DeleteGuarded(req);
      GuardHolds(start, old(trace), checked, trace, {Gateways}, req.deleting);
      if req.deleting { AskedLonger(old(trace), old(trace), checked, trace); }
      if err.None? { RemovedWithResource(start, old(trace), trace, DeleteAreas(req)); }
    }

    /** Removes the control-plane side and leaves the shoot alone, as a migration of
        the control plane and a forced deletion do. Cut off anywhere, it has called
        the beginning of its script, the keep flag before the deletion; no call
        touched the shoot; and no object was lost that was not up for removal when
        it began. */
    method RemoveKeepingObjects() returns (err: Option<Failure>)
      requires Valid()
      modifies this`w, this`calls, this`trace
      ensures Valid() && Retires(old(trace), trace) && Within(old(trace), trace, {Seed, Flag, Retire})
      ensures LeavesShoot(old(trace), trace) && Retained(old(trace), trace, old(w), w)
      ensures err.None? ==> Retired(w) && Completes(old(trace), trace, TEARDOWN + KEEPING)
      ensures err.Some? ==> Halted(old(trace), trace, true) || StuckAtWait(old(trace), trace, w)
    {
      err := RetireResource();
      LeavesShootWithin(start, old(trace), trace, {Seed, Flag, Retire});
      RetirementRetains(start, old(trace), trace);
    }

    /** The calls of the retirement. */
    method RetireResource() returns (err: Option<Failure>)
      requires Valid()
      modifies this`w, this`calls, this`trace
      ensures Valid() && Retires(old(trace), trace) && Within(old(trace), trace, {Seed, Flag, Retire})
      ensures err.None? ==> Retired(w) && Completes(old(trace), trace, TEARDOWN + KEEPING)
      ensures err.Some? ==> Halted(old(trace), trace, true) || StuckAtWait(old(trace), trace, w)
    {
      var failed := Teardown();
      if failed { return Some(NetpolFailed); }
      ghost var tornDown := trace;
      failed := DeleteKeepingObjects();
      RunsOn(old(trace), tornDown, trace, TEARDOWN, KEEPING);
      WithinOn(old(trace), tornDown, trace, {Seed}, {Flag, Retire}, {Seed, Flag, Retire});
      err := if failed then Some(ResourceFailed) else None;
    }

    method Migrate() returns (err: Option<Failure>)
      requires Valid()
      modifies this`w, this`calls, this`trace
      ensures Valid() && Retires(old(trace), trace) && Within(old(trace), trace, {Seed, Flag, Retire})
      ensures LeavesShoot(old(trace), trace) && Retained(old(trace), trace, old(w), w)
      ensures err.None? ==> Retired(w) && Completes(old(trace), trace, TEARDOWN + KEEPING)
      ensures err.Some? ==> Halted(old(trace), trace, true) || StuckAtWait(old(trace), trace, w)
    {
      err := RemoveKeepingObjects();
    }

    method ForceDelete() returns (err: Option<Failure>)
      requires Valid()
      modifies this`w, this`calls, this`trace
      ensures Valid() && Retires(old(trace), trace) && Within(old(trace), trace, {Seed, Flag, Retire})
      ensures LeavesShoot(old(trace), trace) && Retained(old(trace), trace, old(w), w)
      ensures err.None? ==> Retired(w) && Completes(old(trace), trace, TEARDOWN + KEEPING)
      ensures err.Some? ==> Halted(old(trace), trace, true) || StuckAtWait(old(trace), trace, w)
    {
      err := RemoveKeepingObjects();
    }

    /** A restore is a reconcile. */
    method Restore(req: Request) returns (err: Option<Failure>, swept: bool, ghost write: nat)
      requires Valid()
      modifies this`w, this`calls, this`trace
      ensures Valid() && Within(old(trace), trace, Touches(req)) && DeletesListed(old(trace), trace)
      ensures req.Live() && !ActuatorAccepts(decode, req.raw) ==>
                err.Some? && |trace| == |old(trace)| + 1 && Issues(old(trace), trace, [GetCluster]) && OnlyOthers(start, old(trace), trace)
      ensures err == Some(InvalidConfig) ==> !ActuatorAccepts(decode, req.raw)
      ensures req.Live() && ActuatorAccepts(decode, req.raw) ==> DeliversOnly(old(trace), trace, BundleFor(req))
      ensures err.None? && req.Live() ==>
                && ActuatorAccepts(decode, req.raw) && TakesHold(start, old(trace), trace, write, BundleFor(req))
                && NetpolConverged(w, platform, Effective(decode, req.raw, req.version))
      ensures err.None? && req.Live() && swept && Clean() ==> NoOrphans(w.objects)
      ensures err.None? && req.Live() && !Enables(req) && Calm() ==> Pruned(w)
      ensures err.None? && req.hibernated && !req.deleting ==> !CanRun(w)
      ensures req.hibernated || Enables(req) ==> (old(w).accessSecret ==> w.accessSecret)
      ensures err.Some? ==> ReconcileExcuse(old(trace), trace, err.value, req, ActuatorAccepts(decode, req.raw))
      ensures err.None? && req.Live() && !swept ==> Unanswered(old(trace), trace)
      ensures err.None? && req.deleting ==> Permitted(|old(trace)|, trace, |trace|, true)
      ensures req.deleting ==> Asked(old(trace), trace)
      ensures err.None? && req.Live() ==> w.certificates && Met(trace, write).certificates
      ensures req.hibernated && !req.deleting ==>
                w.accessSecret == old(w).accessSecret && KeptOrScaled(old(w).deployment, w.deployment)
      ensures Undelivered(err) ==> Within(old(trace), trace, {Certs, Deliver})
    {
      err, swept, write := Reconcile(req);
    }

    // ---- Runs of operations ----

    /** Any number of migrations, each cut off anywhere, lose nothing either. */
    method RetryMigrate(attempts: nat) returns (migrated: bool)
      requires Valid()
      modifies this`w, this`calls, this`trace
      ensures Valid() && Within(old(trace), trace, {Seed, Flag, Retire}) && Retained(old(trace), trace, old(w), w)
      ensures migrated ==> Retired(w)
      ensures !migrated ==> attempts == 0 || Halted(old(trace), trace, true) || StuckAtWait(old(trace), trace, w)
    {
      var i := 0;
      migrated := false;
      while i < attempts && !migrated
        invariant Valid() && Within(old(trace), trace, {Seed, Flag, Retire}) && Retained(old(trace), trace, old(w), w)
        invariant migrated ==> Retired(w)
        invariant !migrated ==> i == 0 || Halted(old(trace), trace, true) || StuckAtWait(old(trace), trace, w)
        decreases attempts - i
      {
        ghost var before, met := trace, w;
        var err := Migrate();
        RetainedTransitive(old(trace), before, trace, old(w), met, w);
        migrated := err.None?;
        i := i + 1;
      }
    }

    /** Migrate as often as it takes, then restore with the same configuration: the
        bundle is delivered again, and every object that was settled, is no orphan
        and is left to the resource manager keeps its value throughout. */
    method MigrateAndRestore(attempts: nat, req: Request) returns (ok: bool)
      requires Valid() && req.Live() && ActuatorAccepts(decode, req.raw)
      requires w.resource.Some? && w.resource.value.bundle == BundleFor(req)
      modifies this`w, this`calls, this`trace
      ensures Valid()
      ensures ok ==> Converged(w, platform, Effective(decode, req.raw, req.version))
      ensures ok ==> forall k :: LeftToSync(old(trace), trace, k) && SettledAt(old(w), k) && !OrphanAt(old(w), k) ==>
                SettledAt(w, k) && SameObject(old(w), w, k)
      ensures !ok ==>
                attempts == 0 || Halted(old(trace), trace, false) || StuckAtWait(old(trace), trace, w)
    {
      ok := RetryMigrate(attempts);
      if !ok { return; }
      ghost var migrated, met := trace, w;
      var err, _, _ := Restore(req);
      ok := err.None?;
      ghost var bundle := BundleFor(req);
      SettledThrough(start, old(trace), migrated, trace, old(w), met, bundle);
    }

    /** A migration cut off after its delete call, then a complete restore before the
        next sync: the deletion goes on, and takes every applied object along. */
    method RestoreAfterCutOff(req: Request) returns (err: Option<Failure>, ghost between: seq<Step>)
      requires Valid() && req.Live()
      modifies this`w, this`calls, this`trace
      ensures Valid() && old(trace) <= between <= trace && Retires(old(trace), between)
      ensures err.None? && InDeletion(At(start, between, |between|)) && !Synced(trace, |between|, |trace|) ==>
                LosesApplied(At(start, between, |between|), w)
      ensures Halted(old(trace), between, true) || StuckAtWait(old(trace), between, At(start, between, |between|))
                || Completes(old(trace), between, TEARDOWN + KEEPING)
      ensures err.Some? ==> ReconcileExcuse(between, trace, err.value, req, ActuatorAccepts(decode, req.raw))
    {
      var _ := Migrate();
      between := trace;
      var failure, _, _ := Restore(req);
      err := failure;
    }

    /** Any number of reconciliations, each cut off anywhere or not. */
    method ReconcileAll(attempts: seq<Request>)
      requires Valid()
      modifies this`w, this`calls, this`trace
      ensures Valid() && Within(old(trace), trace, EVERYTHING_BUT_RETIREMENT)
    {
      var i := 0;
      while i < |attempts|
        invariant 0 <= i <= |attempts| && Valid() && Within(old(trace), trace, EVERYTHING_BUT_RETIREMENT)
      {
        ghost var before := trace;
        var _, _, _ := Reconcile(attempts[i]);
        WithinOn(old(trace), before, trace, EVERYTHING_BUT_RETIREMENT, Touches(attempts[i]), EVERYTHING_BUT_RETIREMENT);
        i := i + 1;
      }
    }

    /** Any number of attempts, each cut off anywhere or not, then a complete one: it
        leaves the state its configuration asks for, if and only if the
        ManagedResource was not in deletion before the first, or a sync completed
        that deletion before the last write. */
    method RetryReconcile(attempts: seq<Request>, req: Request) returns (complete: bool, swept: bool, ghost write: nat)
      requires Valid() && req.Live()
      modifies this`w, this`calls, this`trace
      ensures Valid()
      ensures complete ==>
                && ActuatorAccepts(decode, req.raw) && |old(trace)| <= write < |trace|
                && (Delivers(w, BundleFor(req)) <==> !InDeletion(old(w)) || Synced(trace, |old(trace)|, write + 1))
                && NetpolConverged(w, platform, Effective(decode, req.raw, req.version)) && w.certificates
                && (swept && Clean() ==> NoOrphans(w.objects))
      ensures !complete ==> !ActuatorAccepts(decode, req.raw) || Halted(old(trace), trace, false)
    {
      ReconcileAll(attempts);
      ghost var last := trace;
      var err;
      err, swept, write := Reconcile(req);
      complete := err.None?;
      if complete { RetriedTakesHold(start, old(trace), last, trace, EVERYTHING_BUT_RETIREMENT, write, BundleFor(req)); }
    }

    /** One sleep or wake-up. */
    method SleepOrWake(req: Request) returns (complete: bool)
      requires Valid() && w.accessSecret && ((req.hibernated && !req.deleting) || Enables(req))
      modifies this`w, this`calls, this`trace
      ensures Valid() && w.accessSecret && old(trace) <= trace
      ensures complete && Enables(req) ==> w.deployment == Some(NetpolDeployment(platform.image, platform.kubeconfig, 1))
      ensures complete && !Enables(req) ==> !CanRun(w)
      ensures !complete ==> Halted(old(trace), trace, false)
    {
      var err, _, _ := Reconcile(req);
      complete := err.None?;
    }

    /** Sleeps and wakes in any order, each cut off anywhere or not: the access secret
        is kept; a complete wake-up brings the desired Deployment with one replica,
        a complete sleep leaves none that asks for one. */
    method HibernateAndWake(reqs: seq<Request>) returns (complete: bool)
      requires Valid() && w.accessSecret && reqs != []
      requires forall i :: 0 <= i < |reqs| ==> (reqs[i].hibernated && !reqs[i].deleting) || Enables(reqs[i])
      modifies this`w, this`calls, this`trace
      ensures Valid() && w.accessSecret
      ensures complete && Enables(reqs[|reqs| - 1]) ==> w.deployment == Some(NetpolDeployment(platform.image, platform.kubeconfig, 1))
      ensures complete && !Enables(reqs[|reqs| - 1]) ==> !CanRun(w)
      ensures !complete ==> Halted(old(trace), trace, false)
    {
      var i := 0;
      complete := false;
      while i < |reqs|
        invariant 0 <= i <= |reqs| && Valid() && w.accessSecret && old(trace) <= trace
        invariant i > 0 && !complete ==> Halted(old(trace), trace, false)
        invariant i > 0 && complete && Enables(reqs[i - 1]) ==> w.deployment == Some(NetpolDeployment(platform.image, platform.kubeconfig, 1))
        invariant i > 0 && complete && !Enables(reqs[i - 1]) ==> !CanRun(w)
      {
        complete := SleepOrWake(reqs[i]);
        i := i + 1;
      }
    }

    predicate NoneEnables(operations: seq<Operation>) {
      forall i :: 0 <= i < |operations| && operations[i].Deploys() ==> !Enables(operations[i].req)
    }

    /** The areas an operation touches. */
    function TouchedBy(operation: Operation): set<Area> {
      match operation
      case Reconciliation(req) => Touches(req)
      case Restoration(req) => Touches(req)
      case Deletion(req) => DeleteAreas(req)
      case Migration => {Seed, Flag, Retire}
      case ForcedDeletion => {Seed, Flag, Retire}
    }

    method PerformOne(operation: Operation)
      requires Valid()
      modifies this`w, this`calls, this`trace
      ensures Valid() && DeletesListed(old(trace), trace) && Within(old(trace), trace, TouchedBy(operation))
    {
      match operation {
        case Reconciliation(req) => var _, _, _ := Reconcile(req);
        case Restoration(req) => var _, _, _ := Restore(req);
        case Deletion(req) => var _ := Delete(req);
        case Migration =>
          var _ := Migrate();
          NoDeletions(old(trace), trace, {Seed, Flag, Retire});
        case ForcedDeletion =>
          var _ := ForceDelete();
          NoDeletions(old(trace), trace, {Seed, Flag, Retire});
      }
    }

    /** Every operation, in any order, cut off at any call: the Deployment never
        exists without its access secret; of policies and other objects, the
        actuator's own calls delete only selected policies and orphans; Gateways are
        asked to go only by an operation on a shoot in deletion; and once the feature
        is off and its policies are gone, they stay gone until an operation switches
        it on. `ends` says where in the history each operation ended. */
    method Perform(operations: seq<Operation>) returns (ghost ends: seq<nat>)
      requires Valid()
      modifies this`w, this`calls, this`trace
      ensures Valid() && DeletesListed(old(trace), trace) && SparesRest(start, old(trace), trace)
      ensures |ends| == |operations| + 1 && ends[0] == |old(trace)| && ends[|operations|] == |trace|
      ensures forall i :: 0 <= i < |operations| ==> StretchIn(trace, ends[i], ends[i + 1], TouchedBy(operations[i]))
      ensures OnlyDrains(|old(trace)|, trace, operations, ends)
      ensures Calm() && Pruned(old(w)) && NoneEnables(operations) ==> Pruned(w)
      ensures SparesForeign(start, old(trace), trace)
    {
      var i := 0;
      ends := [|trace|];
      while i < |operations|
        invariant 0 <= i <= |operations| && Valid() && DeletesListed(old(trace), trace)
        invariant |ends| == i + 1 && ends[0] == |old(trace)| && ends[i] == |trace|
        invariant forall x :: 0 <= x < i ==> StretchIn(trace, ends[x], ends[x + 1], TouchedBy(operations[x]))
        invariant OnlyDrains(|old(trace)|, trace, operations, ends)
        invariant Calm() && Pruned(old(w)) && NoneEnables(operations) ==> Pruned(w)
      {
        ghost var before, sofar := trace, ends;
        PerformOne(operations[i]);
        DeletesListedTransitive(old(trace), before, trace);
        if Calm() && NoneEnables(operations) { NoNewWithin(before, TouchedBy(operations[i])); }
        ends := ends + [|trace|];
        StretchesLonger(before, trace, sofar, ends, operations, i);
        DrainsLonger(|old(trace)|, before, trace, sofar, ends, operations, i);
        i := i + 1;
      }
      DeletionsSpareRest(start, old(trace), trace);
      RestIsForeign(start, old(trace), trace);
    }

    lemma StretchesLonger(before: seq<Step>, after: seq<Step>, sofar: seq<nat>, ends: seq<nat>, operations: seq<Operation>, i: nat)
      requires i < |operations| && |sofar| == i + 1 && ends == sofar + [|after|] && sofar[i] == |before|
      requires forall x :: 0 <= x < i ==> StretchIn(before, sofar[x], sofar[x + 1], TouchedBy(operations[x]))
      requires Within(before, after, TouchedBy(operations[i]))
      ensures forall x :: 0 <= x < i + 1 ==> StretchIn(after, ends[x], ends[x + 1], TouchedBy(operations[x]))
    {
      forall x | 0 <= x < i + 1
        ensures StretchIn(after, ends[x], ends[x + 1], TouchedBy(operations[x]))
      {
        if x < i {
          assert StretchIn(before, sofar[x], sofar[x + 1], TouchedBy(operations[x]));
        }
      }
    }

    lemma DrainsLonger(n: nat, before: seq<Step>, after: seq<Step>, sofar: seq<nat>, ends: seq<nat>, operations: seq<Operation>, i: nat)
      requires i < |operations| && |sofar| == i + 1 && ends == sofar + [|after|] && sofar[i] == |before|
      requires OnlyDrains(n, before, operations, sofar) && Within(before, after, TouchedBy(operations[i]))
      ensures OnlyDrains(n, after, operations, ends)
    {
      forall j | n <= j < |after| && after[j].call.DeleteGateway?
        ensures DrainedAt(j, operations, ends)
      {
        if j < |before| {
          assert before[j] == after[j];
          var x :| 0 <= x < |sofar| - 1 && x < |operations| && operations[x].Drains() && sofar[x] <= j < sofar[x + 1];
          assert ends[x] <= j < ends[x + 1];
        } else {
          assert Stays(after[j], TouchedBy(operations[i]));
          assert ends[i] <= j < ends[i + 1];
        }
      }
    }
  }

  // ---- Runs that happen ----

  /** Nobody else moves, and every call is answered. */
  function Quiet(n: nat): Slot {
    Slot([], C.Answered)
  }

  /** Nobody else moves, and only the answer to the fourth call is lost. */
  function FourthUnacknowledged(n: nat): Slot {
    Slot([], if n == 3 then C.Unacknowledged else C.Answered)
  }

  lemma ScheduleShows(schedule: nat -> Slot, before: seq<Step>, steps: seq<Step>)
    requires FollowsSchedule(schedule, steps) && before <= steps
    requires forall i :: |before| <= i ==> schedule(i) == Slot([], C.Answered)
    ensures !Unanswered(before, steps) && !Synced(steps, |before|, |steps|)
  {
    forall i | |before| <= i < |steps|
      ensures steps[i].outcome.Answered? && steps[i].others == []
    {
      assert Scheduled(schedule, steps, i);
    }
  }

  /** Without syncs, a written bundle takes hold exactly if no deletion is in flight. */
  lemma QuietTakesHold(start: World, steps: seq<Step>, write: nat, bundle: Objects)
    requires TakesHold(start, [], steps, write, bundle) && !Synced(steps, 0, |steps|)
    ensures Delivers(At(start, steps, |steps|), bundle) <==> !InDeletion(start)
    ensures InDeletion(start) ==> LosesApplied(start, At(start, steps, |steps|))
  {
    assert !Synced(steps, 0, write + 1);
  }

  /** Undisturbed, a reconciliation of a live shoot with an accepted configuration
      succeeds; and if the ManagedResource is in deletion, this is a complete run
      after which the next sync removes it with everything applied. */
  method UndisturbedReconcile(w: World, platform: Platform, decode: Decoder, req: Request)
    returns (a: Actuator, err: Option<Failure>)
    requires Sound(w) && req.Live() && ActuatorAccepts(decode, req.raw)
    ensures a.Valid() && a.start == w && forall n :: a.schedule(n) == Slot([], C.Answered)
    ensures err.None?
    ensures Converged(a.w, platform, Effective(decode, req.raw, req.version)) <==> !InDeletion(w)
    ensures InDeletion(w) ==> LosesApplied(w, a.w)
  {
    a := new Actuator(w, Quiet, platform, decode);
    var failure, swept;
    ghost var write;
    failure, swept, write := a.Reconcile(req);
    err := failure;
    ScheduleShows(a.schedule, [], a.trace);
    QuietTakesHold(w, a.trace, write, Bundle(platform, Effective(decode, req.raw, req.version)));
  }

  /** The resource manager syncs before every call, nobody else moves, and every call is
      answered. */
  function Synching(n: nat): Slot {
    Slot([Sync], C.Answered)
  }

  lemma SynchingShows(schedule: nat -> Slot, steps: seq<Step>)
    requires FollowsSchedule(schedule, steps) && forall n :: schedule(n) == Slot([Sync], C.Answered)
    ensures forall i :: 0 <= i < |steps| ==> steps[i].outcome.Answered? && steps[i].others == [Sync]
  {
    forall i | 0 <= i < |steps|
      ensures steps[i].outcome.Answered? && steps[i].others == [Sync]
    {
      assert Scheduled(schedule, steps, i);
    }
  }

  /** Syncs and the actuator's calls leave the Gateways as they are. */
  lemma GatewaysAcross(w: World, c: Call)
    ensures SyncResource(w).shoot.gateways == w.shoot.gateways && Effect(w, c).shoot.gateways == w.shoot.gateways
  {
    SyncOnPolicies(w, Key("", ""));
  }

  lemma {:induction false} GatewaysStayOut(start: World, steps: seq<Step>, j: nat)
    requires IsHistory(start, steps) && j <= |steps|
    requires forall i :: 0 <= i < j ==> steps[i].outcome.Answered? && steps[i].others == [Sync]
    ensures At(start, steps, j).shoot.gateways == start.shoot.gateways
    ensures j > 0 ==> Met(steps, j - 1).shoot.gateways == start.shoot.gateways
    decreases j
  {
    if j > 0 {
      GatewaysStayOut(start, steps, j - 1);
      AtNext(start, steps, j - 1);
      OneSync(At(start, steps, j - 1));
      GatewaysAcross(At(start, steps, j - 1), steps[j - 1].call);
      GatewaysAcross(Met(steps, j - 1), steps[j - 1].call);
    }
  }

  lemma DeletedIsDeleting(w: World)
    ensures Effect(w, DeleteResource).resource.None? || InDeletion(Effect(w, DeleteResource))
  {
  }

  /** With a sync before the wait, the ManagedResource is gone by then. */
  lemma NeverStuck(start: World, steps: seq<Step>)
    requires IsHistory(start, steps)
    requires forall i :: 0 <= i < |steps| ==> steps[i].outcome.Answered? && steps[i].others == [Sync]
    ensures !StuckAtWait([], steps, At(start, steps, |steps|))
  {
    if |steps| >= 2 && steps[|steps| - 2].call == DeleteResource && steps[|steps| - 1].call == AwaitResource {
      var n := |steps| - 2;
      AtNext(start, steps, n);
      DeletedIsDeleting(Met(steps, n));
      AtNext(start, steps, n + 1);
      OneSync(At(start, steps, n + 1));
    }
  }

  /** Nothing stands in the way of an operation on a shoot without Gateways. */
  lemma NothingInTheWay(start: World, steps: seq<Step>, w: World, err: Failure, req: Request)
    requires IsHistory(start, steps) && w == At(start, steps, |steps|) && start.shoot.gateways == map[]
    requires forall i :: 0 <= i < |steps| ==> steps[i].outcome.Answered? && steps[i].others == [Sync]
    requires req.deleting ==> req.polls > 0
    ensures !DeleteExcuse([], steps, w, err, req)
  {
    GatewaysStayOut(start, steps, |steps|);
    NeverStuck(start, steps);
  }

  /** A delete of a shoot without Gateways succeeds while the resource manager syncs. It
      leaves exactly what remains of the shoot's objects: nothing of what the
      ManagedResource applied or carried, if and only if its keep flag was not set. */
  method DeleteSucceeds(w: World, platform: Platform, decode: Decoder, req: Request)
    returns (a: Actuator, err: Option<Failure>)
    requires Sound(w) && w.shoot.gateways == map[] && (req.deleting ==> req.polls > 0)
    ensures a.Valid() && a.start == w && err.None? && Retired(a.w) && !a.w.certificates
    ensures !req.deleting && !req.shootless ==> Pruned(a.w)
    ensures a.w.objects == Remains(w)
    ensures w.resource.Some? && !w.resource.value.deleting ==>
              ((forall k :: k in w.resource.value.applied || k in w.resource.value.bundle ==> k !in a.w.objects)
               <==> !w.resource.value.keepObjects || w.resource.value.bundle == map[])
  {
    a := new Actuator(w, Synching, platform, decode);
    var failure := a.Delete(req);
    err := failure;
    SynchingShows(a.schedule, a.trace);
    if err.Some? { NothingInTheWay(w, a.trace, a.w, err.value, req); }
    DeletedExactly(w, a.trace, a.w, req);
  }

  lemma DeletedExactly(start: World, steps: seq<Step>, w: World, req: Request)
    requires IsHistory(start, steps) && w == At(start, steps, |steps|) && w.resource.None?
    requires Within([], steps, DeleteAreas(req))
    requires steps != [] && forall i :: 0 <= i < |steps| ==> steps[i].others == [Sync]
    ensures w.objects == Remains(start)
    ensures start.resource.Some? && !start.resource.value.deleting ==>
              ((forall k :: k in start.resource.value.applied || k in start.resource.value.bundle ==> k !in w.objects)
               <==> !start.resource.value.keepObjects || start.resource.value.bundle == map[])
  {
    LeavesWhatRemains(start, steps, DeleteAreas(req));
    if start.resource.Some? && !start.resource.value.deleting { NothingRemainsIff(start); }
  }

  lemma SyncsHandOff(steps: seq<Step>, k: ObjectKey)
    requires forall i :: 0 <= i < |steps| ==> steps[i].others == [Sync]
    ensures LeftToSync([], steps, k)
  {
  }

  /** A migration and a restore with the same configuration succeed while the resource
      manager syncs, in every world with a ManagedResource, and change no settled object
      that is no orphan. */
  method MigrationSucceeds(w: World, platform: Platform, decode: Decoder, req: Request)
    returns (a: Actuator, ok: bool)
    requires Sound(w) && req.Live() && ActuatorAccepts(decode, req.raw) && w.resource.Some?
    requires w.resource.value.bundle == Bundle(platform, Effective(decode, req.raw, req.version))
    ensures a.Valid() && a.start == w && ok
    ensures Converged(a.w, platform, Effective(decode, req.raw, req.version))
    ensures forall k :: SettledAt(w, k) && !OrphanAt(w, k) ==> SettledAt(a.w, k) && SameObject(w, a.w, k)
  {
    a := new Actuator(w, Synching, platform, decode);
    ok := a.MigrateAndRestore(1, req);
    SynchingShows(a.schedule, a.trace);
    NeverStuck(w, a.trace);
    forall k
      ensures LeftToSync([], a.trace, k)
    {
      SyncsHandOff(a.trace, k);
    }
  }

  /** A migration whose delete call took effect unacknowledged, then a restore in
      which everything is answered: it happens, and loses everything applied. */
  method RestoreLoses(w: World, platform: Platform, decode: Decoder, req: Request)
    returns (a: Actuator, err: Option<Failure>)
    requires Sound(w) && w.resource.Some? && req.Live() && ActuatorAccepts(decode, req.raw)
    ensures a.Valid() && a.start == w && err.None?
    ensures InDeletion(a.w) && SyncResource(a.w).resource.None?
    ensures SyncResource(a.w).objects == a.w.objects - w.resource.value.applied
  {
    a := new Actuator(w, FourthUnacknowledged, platform, decode);
    ghost var between;
    err, between := a.RestoreAfterCutOff(req);
    CutOffRun(a.schedule, w, a.trace, between);
  }

  lemma CutOffRun(schedule: nat -> Slot, start: World, steps: seq<Step>, between: seq<Step>)
    requires FollowsSchedule(schedule, steps) && between <= steps && forall n :: schedule(n) == FourthUnacknowledged(n)
    requires Retires([], between) && (Halted([], between, true) || (|between| == 5 && between[4].outcome.Answered?))
    requires IsHistory(start, steps) && start.resource.Some?
    ensures var mid := At(start, between, |between|);
            InDeletion(mid) && mid.resource.value.applied == start.resource.value.applied
    ensures !Unanswered(between, steps) && !Synced(steps, |between|, |steps|)
  {
    CutOffAtFour(schedule, steps, between);
    HistoryPrefix(start, between, steps);
    CutOffLeavesDeletion(start, [], between);
    ScheduleShows(schedule, between, steps);
  }

  lemma CutOffAtFour(schedule: nat -> Slot, steps: seq<Step>, between: seq<Step>)
    requires FollowsSchedule(schedule, steps) && between <= steps && forall n :: schedule(n) == FourthUnacknowledged(n)
    requires Retires([], between) && (Halted([], between, true) || (|between| == 5 && between[4].outcome.Answered?))
    ensures |between| == 4
    ensures forall i :: 0 <= i < 4 ==> between[i].others == [] && !between[i].outcome.Lost?
  {
    forall i | 0 <= i < |between|
      ensures between[i].outcome == FourthUnacknowledged(i).outcome && between[i].others == []
    {
      assert Scheduled(schedule, steps, i);
    }
    assert |TEARDOWN + KEEPING| == 5;
    assert |between| > 3 ==> !between[3].outcome.Answered?;
    assert !Completes([], between, TEARDOWN + KEEPING);
  }
}
