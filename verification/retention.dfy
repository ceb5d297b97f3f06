/** What becomes of the delivered objects: which of them a retirement of the
    ManagedResource can lose, when a delivery takes hold, and which objects keep
    their value through both. */
module Retention {
  import opened Kube
  import opened Worlds
  import opened Environment
  import opened Histories
  import opened Cleanups

  // ---- Objects a sync removes ----

  /** The object is up for removal: applied, and either no longer in the bundle or
      the ManagedResource is in deletion without the keep flag. */
  predicate AtRisk(w: World, k: ObjectKey) {
    && w.resource.Some? && k in w.resource.value.applied
    && if w.resource.value.deleting then !w.resource.value.keepObjects else k !in w.resource.value.bundle
  }

  /** Exactly those the next sync removes. */
  lemma SyncRemovesIff(w: World, k: ObjectKey)
    requires k in w.objects
    ensures k !in SyncResource(w).objects <==> AtRisk(w, k)
  {
  }

  ghost predicate LeftToSync(before: seq<Step>, after: seq<Step>, k: ObjectKey) {
    forall x :: |before| <= x < |after| ==> HandsOff(after[x].others, k)
  }

  lemma {:induction false} OthersKeep(w: World, es: seq<EnvAction>, k: ObjectKey)
    requires HandsOff(es, k) && k in w.objects && !AtRisk(w, k)
    ensures k in EnvRun(w, es).objects && !AtRisk(EnvRun(w, es), k)
    decreases |es|
  {
    if es != [] {
      assert HandsOffAction(es[0], k);
      StepKeeps(w, es[0], k);
      OthersKeep(EnvStep(w, es[0]), es[1..], k);
    }
  }

  lemma StepKeeps(w: World, e: EnvAction, k: ObjectKey)
    requires HandsOffAction(e, k) && k in w.objects && !AtRisk(w, k)
    ensures k in EnvStep(w, e).objects && !AtRisk(EnvStep(w, e), k)
  {
    if e.Shoot? {
      ShootStepFrame(w, e.action);
    }
  }

  lemma ShootStepFrame(w: World, a: C.Action)
    ensures ShootStep(w, a).objects == w.objects && ShootStep(w, a).resource == w.resource
  {
  }

  // ---- Retirement ----

  const TEARDOWN: seq<Call> := [DeleteDeployment, DeleteAccessSecret]
  const KEEPING: seq<Call> := [KeepObjects, DeleteResource, AwaitResource]

  /** The retirement of a control plane: the calls of its script in order, up to
      the first one that is not answered. */
  ghost predicate Retires(before: seq<Step>, after: seq<Step>) {
    Runs(before, after, TEARDOWN + KEEPING)
  }

  /** The ManagedResource, if there is one, will leave its objects behind. */
  predicate Kept(w: World) {
    w.resource.Some? ==> w.resource.value.keepObjects
  }

  lemma KeptAfter(w: World, c: Call)
    requires c in KEEPING && (c == KeepObjects || Kept(w))
    ensures Kept(Effect(w, c))
  {
  }

  lemma {:induction false} FlagStays(start: World, before: seq<Step>, after: seq<Step>, j: nat)
    requires IsHistory(start, after) && Retires(before, after) && |before| + 2 < j <= |after| && !after[|before| + 2].outcome.Lost?
    ensures Kept(At(start, after, j))
    decreases j
  {
    AtNext(start, after, j - 1);
    assert after[j - 1].call == (TEARDOWN + KEEPING)[j - 1 - |before|] == KEEPING[j - 3 - |before|];
    if |before| + 3 < j {
      FlagStays(start, before, after, j - 1);
      RunElsewhere(At(start, after, j - 1), after[j - 1].others);
      assert after[j - 1].outcome.Lost? ==> Kept(after[j - 1].met);
    }
    KeptAfter(after[j - 1].met, after[j - 1].call);
  }

  /** The calls of a retirement put no object at risk. */
  lemma RetireCallKeeps(w: World, c: Call, k: ObjectKey)
    requires k in w.objects && !AtRisk(w, k) && c in TEARDOWN + KEEPING && (c == DeleteResource ==> Kept(w))
    ensures k in Effect(w, c).objects && !AtRisk(Effect(w, c), k)
  {
  }

  lemma RetireCallAt(start: World, before: seq<Step>, after: seq<Step>, i: nat)
    requires IsHistory(start, after) && Retires(before, after) && |before| <= i < |after|
    ensures after[i].call in TEARDOWN + KEEPING
    ensures after[i].call == DeleteResource ==> Kept(after[i].met)
  {
    assert after[i].call == (TEARDOWN + KEEPING)[i - |before|];
    if after[i].call == DeleteResource {
      FlagStays(start, before, after, i);
      AtNext(start, after, i);
      RunElsewhere(At(start, after, i), after[i].others);
    }
  }

  lemma KeepsAcross(start: World, before: seq<Step>, after: seq<Step>, i: nat, k: ObjectKey)
    requires IsHistory(start, after) && Retires(before, after) && |before| <= i < |after|
    requires HandsOff(after[i].others, k) && k in At(start, after, i).objects && !AtRisk(At(start, after, i), k)
    ensures k in At(start, after, i + 1).objects && !AtRisk(At(start, after, i + 1), k)
  {
    RetireCallAt(start, before, after, i);
    AtNext(start, after, i);
    OthersKeep(At(start, after, i), after[i].others, k);
    RetireCallKeeps(after[i].met, after[i].call, k);
  }

  /** A retirement, cut off anywhere, loses no object that was not up for removal
      when it began. */
  lemma {:induction false} RetirementKeeps(start: World, before: seq<Step>, after: seq<Step>, i: nat, j: nat, k: ObjectKey)
    requires IsHistory(start, after) && Retires(before, after) && |before| <= i <= j <= |after|
    requires forall x :: i <= x < j ==> HandsOff(after[x].others, k)
    requires k in At(start, after, i).objects && !AtRisk(At(start, after, i), k)
    ensures k in At(start, after, j).objects && !AtRisk(At(start, after, j), k)
    decreases j
  {
    if i < j {
      RetirementKeeps(start, before, after, i, j - 1, k);
      KeepsAcross(start, before, after, j - 1, k);
    }
  }

  /** An object up for removal, such as one of a stuck deletion without the keep flag,
      can be lost before the first call of a retirement. */
  lemma AtRiskCanBeLost(w: World, k: ObjectKey) returns (steps: seq<Step>)
    requires k in w.objects && AtRisk(w, k)
    ensures IsHistory(w, steps) && Retires([], steps) && LeftToSync([], steps, k)
    ensures k !in At(w, steps, |steps|).objects
  {
    var s := TakeStep(w, [Sync], DeleteDeployment, C.Lost);
    steps := [s];
    HistoryAppend(w, [], s);
    assert [] + [s] == steps;
    assert EnvRun(w, [Sync]) == SyncResource(w) by { assert [Sync][1..] == []; }
    SyncRemovesIff(w, k);
  }

  /** And that condition is exact: an object survives every retirement, cut off
      anywhere and interleaved with any syncs, if and only if it is not up for
      removal at the start. The deletion a stuck delete leaves behind, without
      the keep flag, is the failing case. */
  lemma RetirementKeepsIff(w: World, k: ObjectKey)
    requires k in w.objects
    ensures (forall steps :: IsHistory(w, steps) && Retires([], steps) && LeftToSync([], steps, k) ==>
               k in At(w, steps, |steps|).objects)
            <==> !AtRisk(w, k)
  {
    if AtRisk(w, k) {
      var steps := AtRiskCanBeLost(w, k);
      assert k !in At(w, steps, |steps|).objects;
    } else {
      forall steps | IsHistory(w, steps) && Retires([], steps) && LeftToSync([], steps, k)
        ensures k in At(w, steps, |steps|).objects
      {
        RetirementKeeps(w, [], steps, 0, |steps|, k);
      }
    }
  }

  /** From a stuck deletion too, nothing more is lost from the moment the flag
      write takes effect. */
  lemma AfterTheFlag(start: World, before: seq<Step>, after: seq<Step>, j: nat, k: ObjectKey)
    requires IsHistory(start, after) && Retires(before, after) && |before| + 3 <= j <= |after| && !after[|before| + 2].outcome.Lost?
    requires forall x :: |before| + 3 <= x < j ==> HandsOff(after[x].others, k)
    requires InDeletion(At(start, after, |before| + 3)) && k in At(start, after, |before| + 3).objects
    ensures k in At(start, after, j).objects
  {
    FlagStays(start, before, after, |before| + 3);
    RetirementKeeps(start, before, after, |before| + 3, j, k);
  }

  /** An undisturbed call of a retirement that took effect, on the ManagedResource. */
  lemma QuietRetireCall(start: World, before: seq<Step>, after: seq<Step>, i: nat)
    requires IsHistory(start, after) && Retires(before, after) && |before| <= i < |after|
    requires after[i].others == [] && !after[i].outcome.Lost? && At(start, after, i).resource.Some?
    ensures var r := At(start, after, i).resource.value;
            At(start, after, i + 1).resource == Some(
              if i == |before| + 2 then r.(keepObjects := true) else if i == |before| + 3 then r.(deleting := true) else r)
  {
    AtNext(start, after, i);
    assert after[i].call == (TEARDOWN + KEEPING)[i - |before|];
  }

  /** A retirement, undisturbed and cut off right after its delete call took effect,
      leaves the ManagedResource in deletion with its objects. */
  lemma CutOffLeavesDeletion(start: World, before: seq<Step>, after: seq<Step>)
    requires IsHistory(start, after) && Retires(before, after) && |after| == |before| + 4
    requires At(start, before, |before|).resource.Some?
    requires forall i :: |before| <= i < |after| ==> after[i].others == [] && !after[i].outcome.Lost?
    ensures At(start, after, |after|).resource ==
            Some(At(start, before, |before|).resource.value.(keepObjects := true, deleting := true))
  {
    QuietRetireCall(start, before, after, |before|);
    QuietRetireCall(start, before, after, |before| + 1);
    QuietRetireCall(start, before, after, |before| + 2);
    QuietRetireCall(start, before, after, |before| + 3);
  }

  // ---- Delivery ----

  /** The ManagedResource carries the bundle and will remove what leaves it. */
  predicate Delivers(w: World, bundle: Objects) {
    && w.resource.Some? && w.resource.value.bundle == bundle
    && !w.resource.value.keepObjects && !w.resource.value.deleting
  }

  /** The call is one on the ManagedResource. */
  predicate OnResource(c: Call) {
    AreaOf(c).Deliver? || AreaOf(c).Flag? || AreaOf(c).Retire?
  }

  lemma {:induction false} ResourceStays(start: World, steps: seq<Step>, i: nat, j: nat)
    requires IsHistory(start, steps) && i <= j <= |steps|
    requires forall x :: i <= x < j ==> !OnResource(steps[x].call)
    ensures SameResource(At(start, steps, i), At(start, steps, j))
    decreases j
  {
    if i < j {
      ResourceStays(start, steps, i, j - 1);
      AtNext(start, steps, j - 1);
      RunElsewhere(At(start, steps, j - 1), steps[j - 1].others);
      EffectSpares(steps[j - 1].met, steps[j - 1].call, {AreaOf(steps[j - 1].call)});
    }
  }

  /** The steps added contain one write of the ManagedResource, which took effect,
      and no other call on it. */
  ghost predicate WritesOnce(before: seq<Step>, after: seq<Step>, x: nat, bundle: Objects) {
    && before <= after && |before| <= x < |after|
    && after[x].call == WriteResource(bundle) && !after[x].outcome.Lost?
    && forall y :: |before| <= y < |after| && y != x ==> !OnResource(after[y].call)
  }

  /** A written bundle takes hold if and only if the ManagedResource was not in
      deletion at the start, or a sync completed that deletion before the write. */
  lemma DeliversIff(start: World, before: seq<Step>, after: seq<Step>, x: nat, bundle: Objects)
    requires IsHistory(start, after) && WritesOnce(before, after, x, bundle)
    ensures Delivers(At(start, after, |after|), bundle) <==>
            !InDeletion(At(start, after, |before|)) || Synced(after, |before|, x + 1)
  {
    DeletionPersists(start, after, |before|, x);
    DeletionAcross(At(start, after, x), after[x].others);
    AtNext(start, after, x);
    assert Synced(after, |before|, x + 1) <==> Synced(after, |before|, x) || Sync in after[x].others;
    ResourceStays(start, after, x + 1, |after|);
  }

  /** So a bundle takes hold in every history with one write of it if and only if no
      deletion is in flight at the start. */
  lemma DeliversAlwaysIff(w: World, bundle: Objects)
    ensures (forall steps, x :: IsHistory(w, steps) && WritesOnce([], steps, x, bundle) ==>
               Delivers(At(w, steps, |steps|), bundle))
            <==> !InDeletion(w)
  {
    if InDeletion(w) {
      var s := TakeStep(w, [], WriteResource(bundle), C.Answered);
      HistoryAppend(w, [], s);
      assert [] + [s] == [s];
      assert WritesOnce([], [s], 0, bundle);
      assert !Delivers(At(w, [s], |[s]|), bundle);
    } else {
      forall steps, x | IsHistory(w, steps) && WritesOnce([], steps, x, bundle)
        ensures Delivers(At(w, steps, |steps|), bundle)
      {
        DeliversIff(w, [], steps, x, bundle);
      }
    }
  }

  /** The next sync removes the ManagedResource and everything it had applied. */
  predicate LosesApplied(w: World, w': World) {
    && w.resource.Some? && InDeletion(w') && !w'.resource.value.keepObjects
    && SyncResource(w').resource.None? && SyncResource(w').objects == w'.objects - w.resource.value.applied
  }

  /** Otherwise the write revives nothing: it resets the keep flag of a deletion in
      flight, whose next sync removes the ManagedResource and everything applied. */
  lemma RevivedDeletionLoses(start: World, before: seq<Step>, after: seq<Step>, x: nat, bundle: Objects)
    requires IsHistory(start, after) && WritesOnce(before, after, x, bundle)
    requires InDeletion(At(start, after, |before|)) && !Synced(after, |before|, |after|)
    ensures LosesApplied(At(start, after, |before|), At(start, after, |after|))
  {
    DeletionPersists(start, after, |before|, |after|);
    DeletionPersists(start, after, |before|, x);
    DeletionAcross(At(start, after, x), after[x].others);
    AtNext(start, after, x);
    ResourceStays(start, after, x + 1, |after|);
  }

  lemma WritesOnceLonger(a: seq<Step>, b: seq<Step>, c: seq<Step>, x: nat, bundle: Objects, areas: set<Area>)
    requires WritesOnce(a, b, x, bundle) && Within(b, c, areas) && areas !! {Deliver, Flag, Retire}
    ensures WritesOnce(a, c, x, bundle)
  {
    forall y | |a| <= y < |c| && y != x
      ensures !OnResource(c[y].call)
    {
      assert y < |b| ==> c[y] == b[y];
      assert y >= |b| ==> Stays(c[y], areas);
    }
  }

  /** What becomes of a written bundle. */
  ghost predicate TakesHold(start: World, before: seq<Step>, after: seq<Step>, x: nat, bundle: Objects) {
    && WritesOnce(before, after, x, bundle)
    && (Delivers(At(start, after, |after|), bundle) <==>
        !InDeletion(At(start, before, |before|)) || Synced(after, |before|, x + 1))
    && (InDeletion(At(start, before, |before|)) && !Synced(after, |before|, |after|) ==>
        LosesApplied(At(start, before, |before|), At(start, after, |after|)))
  }

  lemma WrittenTakesHold(start: World, before: seq<Step>, after: seq<Step>, x: nat, bundle: Objects)
    requires IsHistory(start, after) && WritesOnce(before, after, x, bundle)
    ensures TakesHold(start, before, after, x, bundle)
  {
    DeliversIff(start, before, after, x, bundle);
    if InDeletion(At(start, before, |before|)) && !Synced(after, |before|, |after|) {
      RevivedDeletionLoses(start, before, after, x, bundle);
    }
  }

  // ---- Objects that keep their value ----

  /** The shoot holds the object as the bundle has it, and it is not up for
      removal, now or with the next sync. */
  predicate SettledAt(w: World, k: ObjectKey) {
    w.resource.Some? ==>
      var r := w.resource.value;
      && (k in r.bundle ==> k in w.objects && w.objects[k] == r.bundle[k])
      && (k in r.applied ==> k in r.bundle)
      && (r.deleting && k in r.applied ==> r.keepObjects)
  }

  lemma StepSettled(w: World, e: EnvAction, k: ObjectKey)
    requires HandsOffAction(e, k) && SettledAt(w, k)
    ensures SettledAt(EnvStep(w, e), k) && SameObject(w, EnvStep(w, e), k)
  {
    if e.Shoot? {
      ShootStepFrame(w, e.action);
    }
  }

  lemma {:induction false} OthersSettled(w: World, es: seq<EnvAction>, k: ObjectKey)
    requires HandsOff(es, k) && SettledAt(w, k)
    ensures SettledAt(EnvRun(w, es), k) && SameObject(w, EnvRun(w, es), k)
    decreases |es|
  {
    if es != [] {
      assert HandsOffAction(es[0], k);
      StepSettled(w, es[0], k);
      OthersSettled(EnvStep(w, es[0]), es[1..], k);
    }
  }

  lemma RetireCallSettled(w: World, c: Call, k: ObjectKey)
    requires SettledAt(w, k) && c in TEARDOWN + KEEPING && (c == DeleteResource ==> Kept(w))
    ensures SettledAt(Effect(w, c), k) && SameObject(w, Effect(w, c), k)
  {
  }

  lemma SettledAcross(start: World, before: seq<Step>, after: seq<Step>, i: nat, k: ObjectKey)
    requires IsHistory(start, after) && Retires(before, after) && |before| <= i < |after|
    requires HandsOff(after[i].others, k) && SettledAt(At(start, after, i), k)
    ensures SettledAt(At(start, after, i + 1), k) && SameObject(At(start, after, i), At(start, after, i + 1), k)
  {
    RetireCallAt(start, before, after, i);
    AtNext(start, after, i);
    OthersSettled(At(start, after, i), after[i].others, k);
    RetireCallSettled(after[i].met, after[i].call, k);
  }

  /** A retirement, cut off anywhere, changes no settled object. */
  lemma {:induction false} RetirementSettled(start: World, before: seq<Step>, after: seq<Step>, j: nat, k: ObjectKey)
    requires IsHistory(start, after) && Retires(before, after) && |before| <= j <= |after|
    requires LeftToSync(before, after, k) && SettledAt(At(start, after, |before|), k)
    ensures SettledAt(At(start, after, j), k) && SameObject(At(start, after, |before|), At(start, after, j), k)
    decreases j
  {
    if |before| < j {
      RetirementSettled(start, before, after, j - 1, k);
      SettledAcross(start, before, after, j - 1, k);
    }
  }

  /** The new bundle has the object as the shoot holds it, and drops it only if the
      old one did not have it. */
  predicate Continues(w: World, k: ObjectKey, bundle: Objects) {
    && (k in bundle ==> k in w.objects && w.objects[k] == bundle[k])
    && (w.resource.Some? && k in w.resource.value.bundle ==> k in bundle)
    && !InDeletion(w)
  }

  lemma DeliverCallSettled(w: World, c: Call, k: ObjectKey, bundle: Objects)
    requires SettledAt(w, k) && Continues(w, k, bundle)
    requires !AreaOf(c).Retire? && (c.WriteResource? ==> c.bundle == bundle) && c != DeleteObject(k)
    ensures SettledAt(Effect(w, c), k) && Continues(Effect(w, c), k, bundle) && SameObject(w, Effect(w, c), k)
  {
  }

  /** The calls of a delivery: no retirement, and one bundle, which is written only
      once the certificates are there. */
  ghost predicate DeliversOnly(before: seq<Step>, after: seq<Step>, bundle: Objects) {
    before <= after && forall x :: |before| <= x < |after| ==> DeliveryStep(after[x], bundle)
  }

  predicate DeliveryStep(s: Step, bundle: Objects) {
    DeliveryCall(s.call, bundle) && (s.call.WriteResource? ==> s.met.certificates)
  }

  predicate DeliveryCall(c: Call, bundle: Objects) {
    !AreaOf(c).Flag? && !AreaOf(c).Retire? && (c.WriteResource? ==> c.bundle == bundle)
  }

  /** The object is settled, and the new bundle continues it. */
  predicate Lasting(w: World, k: ObjectKey, bundle: Objects) {
    SettledAt(w, k) && Continues(w, k, bundle)
  }

  lemma LastingAcross(start: World, steps: seq<Step>, i: nat, k: ObjectKey, bundle: Objects)
    requires IsHistory(start, steps) && i < |steps| && Lasting(At(start, steps, i), k, bundle)
    requires HandsOff(steps[i].others, k) && DeliveryCall(steps[i].call, bundle) && steps[i].call != DeleteObject(k)
    ensures Lasting(At(start, steps, i + 1), k, bundle) && SameObject(At(start, steps, i), At(start, steps, i + 1), k)
  {
    AtNext(start, steps, i);
    OthersSettled(At(start, steps, i), steps[i].others, k);
    RunElsewhere(At(start, steps, i), steps[i].others);
    DeliverCallSettled(steps[i].met, steps[i].call, k, bundle);
  }

  lemma LastingMet(start: World, steps: seq<Step>, i: nat, k: ObjectKey)
    requires IsHistory(start, steps) && i < |steps| && SettledAt(At(start, steps, i), k) && HandsOff(steps[i].others, k)
    ensures SameObject(At(start, steps, i), steps[i].met, k)
  {
    AtNext(start, steps, i);
    OthersSettled(At(start, steps, i), steps[i].others, k);
  }

  /** A delivery, cut off anywhere, changes no settled object that its bundle
      continues and that is no orphan. */
  lemma {:induction false} DeliverySettled(start: World, before: seq<Step>, after: seq<Step>, j: nat, k: ObjectKey, bundle: Objects)
    requires IsHistory(start, after) && DeletesListed(before, after) && |before| <= j <= |after|
    requires LeftToSync(before, after, k) && DeliversOnly(before, after, bundle)
    requires Lasting(At(start, after, |before|), k, bundle) && !OrphanAt(At(start, after, |before|), k)
    ensures Lasting(At(start, after, j), k, bundle) && SameObject(At(start, after, |before|), At(start, after, j), k)
    decreases j
  {
    if |before| < j {
      forall y | |before| <= y < j
        ensures SameObject(At(start, after, |before|), after[y].met, k)
      {
        DeliverySettled(start, before, after, y, k, bundle);
        LastingMet(start, after, y, k);
      }
      NeverListed(|before|, after, j - 1, k);
      DeliverySettled(start, before, after, j - 1, k, bundle);
      assert DeliveryStep(after[j - 1], bundle);
      LastingAcross(start, after, j - 1, k, bundle);
    }
  }

  /** What a delivery calls, and what it deletes. */
  ghost predicate Delivery(before: seq<Step>, after: seq<Step>, areas: set<Area>, bundle: Objects) {
    Within(before, after, areas) && DeletesListed(before, after) && DeliversOnly(before, after, bundle)
  }

  lemma DeliveryOn(a: seq<Step>, b: seq<Step>, c: seq<Step>, first: set<Area>, second: set<Area>, areas: set<Area>, bundle: Objects)
    requires Delivery(a, b, first, bundle) && Delivery(b, c, second, bundle) && first <= areas && second <= areas
    ensures Delivery(a, c, areas, bundle)
  {
    WithinOn(a, b, c, first, second, areas);
    DeletesListedTransitive(a, b, c);
    forall x | |a| <= x < |c|
      ensures DeliveryStep(c[x], bundle)
    {
      assert x < |b| ==> DeliveryStep(b[x], bundle);
      assert x >= |b| ==> DeliveryStep(c[x], bundle);
    }
  }

  lemma NoDelivery(before: seq<Step>, after: seq<Step>, areas: set<Area>, bundle: Objects)
    requires Within(before, after, areas) && DeletesListed(before, after) && areas !! {Deliver, Flag, Retire}
    ensures Delivery(before, after, areas, bundle)
  {
    AreasOf(before, after, areas);
  }

  // ---- What is retained over several operations ----

  /** Of the objects left to the resource manager, none was lost that was not up for
      removal, and no settled one changed. */
  ghost predicate Retained(before: seq<Step>, after: seq<Step>, w: World, w': World) {
    forall k :: LeftToSync(before, after, k) ==>
      && (k in w.objects && !AtRisk(w, k) ==> k in w'.objects && !AtRisk(w', k))
      && (SettledAt(w, k) ==> SettledAt(w', k) && SameObject(w, w', k))
  }

  lemma RetirementRetains(start: World, before: seq<Step>, after: seq<Step>)
    requires IsHistory(start, after) && Retires(before, after)
    ensures Retained(before, after, At(start, before, |before|), At(start, after, |after|))
  {
    var w, w' := At(start, before, |before|), At(start, after, |after|);
    forall k | LeftToSync(before, after, k)
      ensures k in w.objects && !AtRisk(w, k) ==> k in w'.objects && !AtRisk(w', k)
      ensures SettledAt(w, k) ==> SettledAt(w', k) && SameObject(w, w', k)
    {
      if k in w.objects && !AtRisk(w, k) { RetirementKeeps(start, before, after, |before|, |after|, k); }
      if SettledAt(w, k) { RetirementSettled(start, before, after, |after|, k); }
    }
  }

  lemma LeftToSyncParts(a: seq<Step>, b: seq<Step>, c: seq<Step>, k: ObjectKey)
    requires a <= b <= c && LeftToSync(a, c, k)
    ensures LeftToSync(a, b, k) && LeftToSync(b, c, k)
  {
    assert forall x :: |a| <= x < |b| ==> b[x] == c[x];
  }

  lemma RetainedTransitive(a: seq<Step>, b: seq<Step>, c: seq<Step>, u: World, v: World, w: World)
    requires a <= b <= c && Retained(a, b, u, v) && Retained(b, c, v, w)
    ensures Retained(a, c, u, w)
  {
    forall k | LeftToSync(a, c, k)
      ensures k in u.objects && !AtRisk(u, k) ==> k in w.objects && !AtRisk(w, k)
      ensures SettledAt(u, k) ==> SettledAt(w, k) && SameObject(u, w, k)
    {
      LeftToSyncParts(a, b, c, k);
    }
  }

  /** What was settled, retained until the ManagedResource was gone, and delivered again
      with the same bundle has its value. */
  lemma SettledThrough(start: World, a: seq<Step>, b: seq<Step>, c: seq<Step>, u: World, v: World, bundle: Objects)
    requires IsHistory(start, c) && a <= b <= c && v == At(start, b, |b|) && Retained(a, b, u, v) && v.resource.None?
    requires u.resource.Some? && u.resource.value.bundle == bundle
    requires DeletesListed(b, c) && DeliversOnly(b, c, bundle)
    ensures forall k :: LeftToSync(a, c, k) && SettledAt(u, k) && !OrphanAt(u, k) ==>
              SettledAt(At(start, c, |c|), k) && SameObject(u, At(start, c, |c|), k)
  {
    forall k | LeftToSync(a, c, k) && SettledAt(u, k) && !OrphanAt(u, k)
      ensures SettledAt(At(start, c, |c|), k) && SameObject(u, At(start, c, |c|), k)
    {
      LeftToSyncParts(a, b, c, k);
      assert SettledAt(v, k) && SameObject(u, v, k);
      DeliverySettled(start, b, c, |c|, k, bundle);
    }
  }

  /** Earlier deliveries do not change the condition for the last to take hold. */
  lemma RetriedTakesHold(start: World, a: seq<Step>, b: seq<Step>, c: seq<Step>, areas: set<Area>, write: nat, bundle: Objects)
    requires IsHistory(start, c) && Within(a, b, areas) && Retire !in areas && TakesHold(start, b, c, write, bundle)
    ensures Delivers(At(start, c, |c|), bundle) <==> !InDeletion(At(start, a, |a|)) || Synced(c, |a|, write + 1)
  {
    AreasOf(a, b, areas);
    SyncedSince(start, a, b, c, write);
  }

  lemma SyncedSince(start: World, a: seq<Step>, b: seq<Step>, c: seq<Step>, write: nat)
    requires IsHistory(start, c) && a <= b <= c && |b| <= write < |c|
    requires forall x :: |a| <= x < |b| ==> !AreaOf(b[x].call).Retire?
    ensures !InDeletion(At(start, b, |b|)) || Synced(c, |b|, write + 1) <==>
            !InDeletion(At(start, a, |a|)) || Synced(c, |a|, write + 1)
  {
    assert forall x :: |a| <= x < |b| ==> b[x] == c[x];
    DeletionPersists(start, c, |a|, |b|);
  }
}
