/** The two clean-ups of the shoot, the prune of policies and the sweep of orphans:
    what they delete, what they spare, and what is left when they succeed, with
    others at work on the same objects. */
module Cleanups {
  import opened Kube
  import opened DataPlane
  import opened Worlds
  import opened Environment
  import opened Histories

  // ---- Deletions follow listings ----

  predicate ListedOrphan(steps: seq<Step>, i: nat, k: ObjectKey)
    requires i < |steps|
  {
    steps[i].call == ListObjects(k.kind) && steps[i].outcome.Answered? && OrphanAt(Met(steps, i), k)
  }

  predicate ListedPolicy(steps: seq<Step>, i: nat, k: Key)
    requires i < |steps|
  {
    steps[i].call == ListPolicies && steps[i].outcome.Answered? && Selected(Met(steps, i), k)
  }

  predicate ListedGateway(steps: seq<Step>, i: nat, k: Key)
    requires i < |steps|
  {
    && steps[i].call == ListGateways && steps[i].outcome.Answered?
    && k in Met(steps, i).shoot.gateways && k !in Met(steps, i).terminating
  }

  /** Among the steps added, every deletion of an object, a policy or a Gateway is of one
      that an earlier listing among them found to be an orphan, to be selected, or to be
      staying. */
  ghost predicate DeletesListed(before: seq<Step>, after: seq<Step>) {
    before <= after && forall x :: |before| <= x < |after| ==> Justified(|before|, after, x)
  }

  ghost predicate Justified(n: nat, steps: seq<Step>, x: nat)
    requires x < |steps|
  {
    match steps[x].call
    case DeleteObject(k) => exists y :: n <= y < x && ListedOrphan(steps, y, k)
    case DeletePolicy(k) => exists y :: n <= y < x && ListedPolicy(steps, y, k)
    case DeleteGateway(k) => exists y :: n <= y < x && ListedGateway(steps, y, k)
    case _ => true
  }

  /** A justification lasts, and holds for a longer stretch too. */
  lemma JustifiedLonger(n: nat, m: nat, steps: seq<Step>, more: seq<Step>, x: nat)
    requires m <= n && steps <= more && x < |steps| && Justified(n, steps, x)
    ensures Justified(m, more, x)
  {
    match steps[x].call
    case DeleteObject(k) =>
      var y :| n <= y < x && ListedOrphan(steps, y, k);
      assert ListedOrphan(more, y, k);
    case DeletePolicy(k) =>
      var y :| n <= y < x && ListedPolicy(steps, y, k);
      assert ListedPolicy(more, y, k);
    case DeleteGateway(k) =>
      var y :| n <= y < x && ListedGateway(steps, y, k);
      assert ListedGateway(more, y, k);
    case _ =>
  }

  lemma DeletesListedTransitive(a: seq<Step>, b: seq<Step>, c: seq<Step>)
    requires DeletesListed(a, b) && DeletesListed(b, c)
    ensures DeletesListed(a, c)
  {
    forall x | |a| <= x < |c|
      ensures Justified(|a|, c, x)
    {
      if x < |b| {
        JustifiedLonger(|a|, |a|, b, c, x);
      } else {
        JustifiedLonger(|b|, |a|, c, c, x);
      }
    }
  }

  lemma NoDeletions(before: seq<Step>, after: seq<Step>, areas: set<Area>)
    requires Within(before, after, areas) && areas !! {Policies, Sweep, Gateways}
    ensures DeletesListed(before, after)
  {
    forall x | |before| <= x < |after|
      ensures Justified(|before|, after, x)
    {
      assert Stays(after[x], areas);
    }
  }

  /** The last step is an answered call that changed nothing. */
  predicate Lists(before: seq<Step>, listing: seq<Step>, c: Call) {
    && |listing| == |before| + 1 && before <= listing
    && listing[|before|].call == c && listing[|before|].outcome.Answered?
  }

  /** The calls added delete policies of the given set. */
  ghost predicate PrunesOnly(before: seq<Step>, after: seq<Step>, items: set<Key>) {
    before <= after && forall x :: |before| <= x < |after| ==> after[x].call.DeletePolicy? && after[x].call.policy in items
  }

  /** A listing followed by deletions of what it found, and only that. */
  lemma PruneIsJustified(before: seq<Step>, listing: seq<Step>, after: seq<Step>, items: set<Key>)
    requires Lists(before, listing, ListPolicies) && PrunesOnly(listing, after, items)
    requires forall k :: k in items <==> Selected(Met(listing, |before|), k)
    ensures DeletesListed(before, after) && Within(before, after, {Policies})
    ensures forall k :: k !in items ==> SawUnselected(|before|, after, k)
  {
    assert Met(after, |before|) == Met(listing, |before|);
    forall x | |before| <= x < |after|
      ensures Justified(|before|, after, x) && Stays(after[x], {Policies})
    {
      if x > |before| {
        assert ListedPolicy(after, |before|, after[x].call.policy);
      }
    }
    forall k | k !in items
      ensures SawUnselected(|before|, after, k)
    {
      assert !Selected(Met(after, |before|), k);
    }
  }

  /** A listing followed by requests to what it found staying. */
  lemma AskingIsJustified(before: seq<Step>, listing: seq<Step>, after: seq<Step>, staying: set<Key>)
    requires Lists(before, listing, ListGateways) && listing <= after
    requires forall k :: k in staying ==> ListedGateway(listing, |before|, k)
    requires forall x :: |listing| <= x < |after| ==> after[x].call.DeleteGateway? && after[x].call.gateway in staying
    ensures DeletesListed(before, after)
  {
    forall x | |before| <= x < |after|
      ensures Justified(|before|, after, x)
    {
      if x > |before| {
        assert ListedGateway(listing, |before|, after[x].call.gateway);
        assert ListedGateway(after, |before|, after[x].call.gateway);
      }
    }
  }

  predicate SweepsFrom(c: Call, items: Objects) {
    c.DeleteObject? && c.object_ in items && IsOrphanedDataPlaneObject(items[c.object_])
  }

  /** The objects of a kind that the sweep lists. */
  ghost predicate IsListing(objects: Objects, kind: Kind, items: Objects) {
    forall k :: (k in items <==> k in objects && k.kind == kind && SweepLists(k, objects[k])) &&
      (k in items ==> items[k] == objects[k])
  }

  ghost predicate SweepsOnly(before: seq<Step>, after: seq<Step>, items: Objects) {
    before <= after && forall x :: |before| <= x < |after| ==> SweepsFrom(after[x].call, items)
  }

  lemma SweepIsJustified(before: seq<Step>, listing: seq<Step>, after: seq<Step>, kind: Kind, items: Objects)
    requires Lists(before, listing, ListObjects(kind)) && SweepsOnly(listing, after, items) && !kind.OtherKind?
    requires IsListing(Met(listing, |before|).objects, kind, items)
    ensures DeletesListed(before, after) && Within(before, after, {Sweep})
    ensures forall k: ObjectKey :: k.kind == kind && !(k in items && IsOrphanedDataPlaneObject(items[k])) ==>
              SawNoOrphan(|before|, after, k)
  {
    assert Met(after, |before|) == Met(listing, |before|);
    forall x | |before| <= x < |after|
      ensures Justified(|before|, after, x) && Stays(after[x], {Sweep})
    {
      if x > |before| {
        assert SweepsFrom(after[x].call, items);
        SweptKindsAreAll();
        SweepFindsOrphans(after[x].call.object_, items[after[x].call.object_]);
        assert ListedOrphan(after, |before|, after[x].call.object_);
      }
    }
    forall k: ObjectKey | k.kind == kind && !(k in items && IsOrphanedDataPlaneObject(items[k]))
      ensures SawNoOrphan(|before|, after, k)
    {
      if k in Met(after, |before|).objects { SweepFindsOrphans(k, Met(after, |before|).objects[k]); }
      assert !OrphanAt(Met(after, |before|), k);
    }
  }

  // ---- What survives ----

  predicate SameObject(w: World, w': World, k: ObjectKey) {
    (k in w'.objects <==> k in w.objects) && (k in w.objects ==> w'.objects[k] == w.objects[k])
  }

  predicate SamePolicy(w: World, w': World, k: Key) {
    (k in w'.shoot.policies <==> k in w.shoot.policies) && (k in w.shoot.policies ==> w'.shoot.policies[k] == w.shoot.policies[k])
  }

  /** No step of others changes the object. */
  ghost predicate ObjectLeftAlone(start: World, before: seq<Step>, after: seq<Step>, k: ObjectKey) {
    forall x :: |before| <= x < |after| ==> SameObject(At(start, after, x), Met(after, x), k)
  }

  ghost predicate PolicyLeftAlone(start: World, before: seq<Step>, after: seq<Step>, k: Key) {
    forall x :: |before| <= x < |after| ==> SamePolicy(At(start, after, x), Met(after, x), k)
  }

  /** A call changes an object only by deleting it. */
  lemma CallOnObject(w: World, c: Call, k: ObjectKey)
    ensures c == DeleteObject(k) || SameObject(w, Effect(w, c), k)
  {
  }

  lemma CallOnPolicy(w: World, c: Call, k: Key)
    ensures c == DeletePolicy(k) || SamePolicy(w, Effect(w, c), k)
  {
  }

  /** What no listing found to be an orphan, or to be selected, is not deleted. */
  lemma NeverListed(n: nat, steps: seq<Step>, x: nat, k: ObjectKey)
    requires x < |steps| && Justified(n, steps, x) && forall y :: n <= y < x ==> !OrphanAt(Met(steps, y), k)
    ensures steps[x].call != DeleteObject(k)
  {
  }

  lemma NeverSelected(n: nat, steps: seq<Step>, x: nat, k: Key)
    requires x < |steps| && Justified(n, steps, x) && forall y :: n <= y < x ==> !Selected(Met(steps, y), k)
    ensures steps[x].call != DeletePolicy(k)
  {
  }

  /** Whatever is cut off where, an object that is no orphan survives with the same
      labels, unless others change it. */
  lemma {:induction false} SweepSpares(start: World, before: seq<Step>, after: seq<Step>, j: nat, k: ObjectKey)
    requires IsHistory(start, after) && DeletesListed(before, after) && |before| <= j <= |after|
    requires ObjectLeftAlone(start, before, after, k) && !OrphanAt(At(start, after, |before|), k)
    ensures SameObject(At(start, after, |before|), At(start, after, j), k)
    decreases j
  {
    if |before| < j {
      forall y | |before| <= y < j
        ensures SameObject(At(start, after, |before|), Met(after, y), k) && !OrphanAt(Met(after, y), k)
      {
        SweepSpares(start, before, after, y, k);
      }
      NeverListed(|before|, after, j - 1, k);
      ObjectAcross(start, after, j - 1, k);
    }
  }

  lemma ObjectAcross(start: World, steps: seq<Step>, i: nat, k: ObjectKey)
    requires IsHistory(start, steps) && i < |steps| && steps[i].call != DeleteObject(k)
    ensures SameObject(Met(steps, i), At(start, steps, i + 1), k)
  {
    AtNext(start, steps, i);
    CallOnObject(Met(steps, i), steps[i].call, k);
  }

  /** Likewise a policy that is not selected. */
  lemma {:induction false} PruneSpares(start: World, before: seq<Step>, after: seq<Step>, j: nat, k: Key)
    requires IsHistory(start, after) && DeletesListed(before, after) && |before| <= j <= |after|
    requires PolicyLeftAlone(start, before, after, k) && !Selected(At(start, after, |before|), k)
    ensures SamePolicy(At(start, after, |before|), At(start, after, j), k)
    decreases j
  {
    if |before| < j {
      forall y | |before| <= y < j
        ensures SamePolicy(At(start, after, |before|), Met(after, y), k) && !Selected(Met(after, y), k)
      {
        PruneSpares(start, before, after, y, k);
      }
      NeverSelected(|before|, after, j - 1, k);
      PolicyAcross(start, after, j - 1, k);
    }
  }

  lemma PolicyAcross(start: World, steps: seq<Step>, i: nat, k: Key)
    requires IsHistory(start, steps) && i < |steps| && steps[i].call != DeletePolicy(k)
    ensures SamePolicy(Met(steps, i), At(start, steps, i + 1), k)
  {
    AtNext(start, steps, i);
    CallOnPolicy(Met(steps, i), steps[i].call, k);
  }

  /** Objects that are no orphans and policies that are not selected have the value
      they had, unless others changed them. */
  ghost predicate SparesRest(start: World, before: seq<Step>, after: seq<Step>)
    requires before <= after
  {
    var w, w' := At(start, before, |before|), At(start, after, |after|);
    && (forall k :: ObjectLeftAlone(start, before, after, k) && !OrphanAt(w, k) ==> SameObject(w, w', k))
    && (forall k :: PolicyLeftAlone(start, before, after, k) && !Selected(w, k) ==> SamePolicy(w, w', k))
  }

  lemma DeletionsSpareRest(start: World, before: seq<Step>, after: seq<Step>)
    requires IsHistory(start, after) && DeletesListed(before, after)
    ensures SparesRest(start, before, after)
  {
    var w, w' := At(start, before, |before|), At(start, after, |after|);
    forall k | ObjectLeftAlone(start, before, after, k) && !OrphanAt(w, k)
      ensures SameObject(w, w', k)
    {
      SweepSpares(start, before, after, |after|, k);
    }
    forall k | PolicyLeftAlone(start, before, after, k) && !Selected(w, k)
      ensures SamePolicy(w, w', k)
    {
      PruneSpares(start, before, after, |after|, k);
    }
  }

  // ---- The same, with kinds, names and label values written out ----

  /** Not of the six kinds, or not in kube-system, or without one of the two labels. */
  predicate Foreign(k: ObjectKey, labels: Labels) {
    || k.kind.OtherKind? || k.namespace != "kube-system"
    || "app.kubernetes.io/managed-by" !in labels || labels["app.kubernetes.io/managed-by"] != "envoy-gateway"
    || "gateway.envoyproxy.io/owning-gateway-name" !in labels
  }

  /** Not managed by gardener, or without a hop label. */
  predicate ForeignPolicy(labels: Labels) {
    || "app.kubernetes.io/managed-by" !in labels || labels["app.kubernetes.io/managed-by"] != "gardener"
    || "envoy-gateway.extensions.gardener.cloud/hop" !in labels
  }

  /** Foreign objects and policies that others leave alone keep their value. */
  ghost predicate SparesForeign(start: World, before: seq<Step>, after: seq<Step>)
    requires before <= after
  {
    var w, w' := At(start, before, |before|), At(start, after, |after|);
    && (forall k :: ObjectLeftAlone(start, before, after, k) && k in w.objects && Foreign(k, w.objects[k]) ==> SameObject(w, w', k))
    && (forall k :: PolicyLeftAlone(start, before, after, k) && k in w.shoot.policies && ForeignPolicy(w.shoot.policies[k].labels) ==>
          SamePolicy(w, w', k))
  }

  lemma RestIsForeign(start: World, before: seq<Step>, after: seq<Step>)
    requires before <= after && SparesRest(start, before, after)
    ensures SparesForeign(start, before, after)
  {
    var w, w' := At(start, before, |before|), At(start, after, |after|);
    forall k | ObjectLeftAlone(start, before, after, k) && k in w.objects && Foreign(k, w.objects[k])
      ensures SameObject(w, w', k)
    {
      OrphanMeaning(k, w.objects[k]);
    }
    forall k | PolicyLeftAlone(start, before, after, k) && k in w.shoot.policies && ForeignPolicy(w.shoot.policies[k].labels)
      ensures SamePolicy(w, w', k)
    {
      SelectionMeaning(w.shoot.policies[k].labels);
    }
  }

  /** No orphans means: in kube-system no object of the six kinds has both labels. */
  lemma NoOrphansMeaning(objects: Objects)
    ensures NoOrphans(objects) <==> forall k :: k in objects ==> Foreign(k, objects[k])
  {
    forall k | k in objects
      ensures k in OrphansOf(objects) <==> !Foreign(k, objects[k])
    {
      OrphanMeaning(k, objects[k]);
    }
    if NoOrphans(objects) {
      assert forall k :: k in objects ==> k !in OrphansOf(objects);
    } else {
      var k :| k in OrphansOf(objects);
    }
  }

  /** Pruned means: no policy has both labels. */
  lemma PrunedMeaning(w: World)
    ensures Pruned(w) <==> Stopped(w) && forall k :: k in w.shoot.policies ==> ForeignPolicy(w.shoot.policies[k].labels)
  {
    forall k | k in w.shoot.policies
      ensures Selected(w, k) <==> !ForeignPolicy(w.shoot.policies[k].labels)
    {
      SelectionMeaning(w.shoot.policies[k].labels);
    }
  }

  /** So a delivered object is never deleted by the actuator, at any point of
      failure, nor is the control-plane policy. */
  lemma DeliveredSurvives(start: World, before: seq<Step>, after: seq<Step>, j: nat, bundle: Objects, k: ObjectKey)
    requires IsHistory(start, after) && DeletesListed(before, after) && |before| <= j <= |after|
    requires NoOrphans(bundle) && k in bundle && ObjectLeftAlone(start, before, after, k)
    requires k in At(start, after, |before|).objects && At(start, after, |before|).objects[k] == bundle[k]
    ensures k in At(start, after, j).objects && At(start, after, j).objects[k] == bundle[k]
  {
    assert k !in OrphansOf(bundle);
    SweepSpares(start, before, after, j, k);
  }

  lemma ControlPlanePolicySurvives(start: World, before: seq<Step>, after: seq<Step>, j: nat)
    requires IsHistory(start, after) && DeletesListed(before, after) && |before| <= j <= |after|
    requires PolicyLeftAlone(start, before, after, ControlPlanePolicy().ObjectKey())
    requires var k := ControlPlanePolicy().ObjectKey();
             k in At(start, after, |before|).shoot.policies &&
             At(start, after, |before|).shoot.policies[k].labels == ControlPlanePolicy().labels
    ensures SamePolicy(At(start, after, |before|), At(start, after, j), ControlPlanePolicy().ObjectKey())
  {
    SelectionFits("", ProxyIngress, map[]);
    PruneSpares(start, before, after, j, ControlPlanePolicy().ObjectKey());
  }

  // ---- What is left ----

  /** At some moment the object was no orphan. */
  ghost predicate SawNoOrphan(n: nat, steps: seq<Step>, k: ObjectKey) {
    exists z :: n <= z < |steps| && (!OrphanAt(Met(steps, z), k) || !OrphanAt(Left(steps, z), k))
  }

  ghost predicate SawUnselected(n: nat, steps: seq<Step>, k: Key) {
    exists z :: n <= z < |steps| && (!Selected(Met(steps, z), k) || !Selected(Left(steps, z), k))
  }

  lemma SawLonger(n: nat, m: nat, steps: seq<Step>, more: seq<Step>)
    requires m <= n && steps <= more
    ensures forall k :: SawNoOrphan(n, steps, k) ==> SawNoOrphan(m, more, k)
    ensures forall k :: SawUnselected(n, steps, k) ==> SawUnselected(m, more, k)
  {
    forall k | SawNoOrphan(n, steps, k)
      ensures SawNoOrphan(m, more, k)
    {
      var z :| n <= z < |steps| && (!OrphanAt(Met(steps, z), k) || !OrphanAt(Left(steps, z), k));
      assert Met(more, z) == Met(steps, z) && Left(more, z) == Left(steps, z);
    }
    forall k | SawUnselected(n, steps, k)
      ensures SawUnselected(m, more, k)
    {
      var z :| n <= z < |steps| && (!Selected(Met(steps, z), k) || !Selected(Left(steps, z), k));
      assert Met(more, z) == Met(steps, z) && Left(more, z) == Left(steps, z);
    }
  }

  lemma NoOrphanAfter(start: World, steps: seq<Step>, z: nat, k: ObjectKey)
    requires IsHistory(start, steps) && z < |steps| && !AreaOf(steps[z].call).Deliver?
    requires !OrphanAt(Met(steps, z), k) || !OrphanAt(Left(steps, z), k)
    ensures !OrphanAt(At(start, steps, z + 1), k)
  {
    AtNext(start, steps, z);
    EffectKeepsTidy(Met(steps, z), steps[z].call);
  }

  /** If nobody makes new ones, what was no orphan once is none at the end. */
  lemma NoOrphanStays(start: World, n: nat, steps: seq<Step>, k: ObjectKey)
    requires IsHistory(start, steps) && n <= |steps| && TidyBundle(At(start, steps, n)) && SawNoOrphan(n, steps, k)
    requires forall x :: n <= x < |steps| ==> !AreaOf(steps[x].call).Deliver? && Tidy(steps[x].others)
    ensures !OrphanAt(At(start, steps, |steps|), k)
  {
    var z :| n <= z < |steps| && (!OrphanAt(Met(steps, z), k) || !OrphanAt(Left(steps, z), k));
    NoOrphanAfter(start, steps, z, k);
    OrphansShrink(start, steps, n, z + 1);
    OrphansShrink(start, steps, z + 1, |steps|);
  }

  /** If no controller runs and nobody else writes such policies, what was not
      selected once is not selected at the end. */
  lemma UnselectedStays(start: World, n: nat, steps: seq<Step>, k: Key)
    requires IsHistory(start, steps) && n <= |steps| && Stopped(At(start, steps, n)) && SawUnselected(n, steps, k)
    requires forall x :: n <= x < |steps| ==> !AreaOf(steps[x].call).Start? && Tame(steps[x].others)
    ensures !Selected(At(start, steps, |steps|), k)
  {
    var z :| n <= z < |steps| && (!Selected(Met(steps, z), k) || !Selected(Left(steps, z), k));
    StoppedStays(start, steps, n, z);
    RunElsewhere(At(start, steps, z), steps[z].others);
    AtNext(start, steps, z);
    EffectKeepsStopped(Met(steps, z), steps[z].call);
    StoppedStays(start, steps, z + 1, |steps|);
  }

  /** A complete prune without a controller, and without others who write such
      policies, leaves none. */
  lemma PruneEnds(start: World, n: nat, steps: seq<Step>)
    requires IsHistory(start, steps) && n <= |steps| && Stopped(At(start, steps, n))
    requires forall x :: n <= x < |steps| ==> !AreaOf(steps[x].call).Start? && Tame(steps[x].others)
    requires forall k :: SawUnselected(n, steps, k)
    ensures Pruned(At(start, steps, |steps|))
  {
    StoppedStays(start, steps, n, |steps|);
    forall k
      ensures !Selected(At(start, steps, |steps|), k)
    {
      UnselectedStays(start, n, steps, k);
    }
  }

  /** A complete sweep, without others who make new orphans, leaves none. */
  lemma SweepEnds(start: World, n: nat, steps: seq<Step>)
    requires IsHistory(start, steps) && n <= |steps| && TidyBundle(At(start, steps, n))
    requires forall x :: n <= x < |steps| ==> !AreaOf(steps[x].call).Deliver? && Tidy(steps[x].others)
    requires forall k :: SawNoOrphan(n, steps, k)
    ensures NoOrphans(At(start, steps, |steps|).objects)
  {
    forall k
      ensures !OrphanAt(At(start, steps, |steps|), k)
    {
      NoOrphanStays(start, n, steps, k);
    }
    NoneIsOrphan(At(start, steps, |steps|));
  }

  lemma NoneIsOrphan(w: World)
    ensures NoOrphans(w.objects) <==> forall k :: !OrphanAt(w, k)
  {
    assert forall k :: OrphanAt(w, k) <==> k in OrphansOf(w.objects);
  }

  /** And none appears as long as no new bundle is written. */
  lemma StaysSwept(start: World, steps: seq<Step>, i: nat, j: nat)
    requires IsHistory(start, steps) && i <= j <= |steps| && TidyBundle(At(start, steps, i)) && NoOrphans(At(start, steps, i).objects)
    requires forall x :: i <= x < j ==> !AreaOf(steps[x].call).Deliver? && Tidy(steps[x].others)
    ensures NoOrphans(At(start, steps, j).objects)
  {
    OrphansShrink(start, steps, i, j);
    NoneIsOrphan(At(start, steps, i));
    NoneIsOrphan(At(start, steps, j));
  }

  /** A sweep is idempotent: where there are no orphans and nobody makes new ones, it
      deletes nothing. */
  lemma NothingLeftToSweep(start: World, before: seq<Step>, after: seq<Step>, x: nat)
    requires IsHistory(start, after) && DeletesListed(before, after) && |before| <= x < |after|
    requires TidyBundle(At(start, after, |before|)) && NoOrphans(At(start, after, |before|).objects)
    requires forall y :: |before| <= y < |after| ==> !AreaOf(after[y].call).Deliver? && Tidy(after[y].others)
    ensures !after[x].call.DeleteObject?
  {
    if after[x].call.DeleteObject? {
      assert Justified(|before|, after, x);
      var y :| |before| <= y < x && ListedOrphan(after, y, after[x].call.object_);
      OrphansShrink(start, after, |before|, y);
      AtNext(start, after, y);
      RunElsewhere(At(start, after, y), after[y].others);
      NoneIsOrphan(At(start, after, |before|));
    }
  }

  // ---- Who put what is left ----

  /** The step of others makes the policy one that the prune selects. */
  predicate PutsPolicy(w: World, e: EnvAction, k: Key) {
    !Selected(w, k) && Selected(EnvStep(w, e), k)
  }

  lemma CallOfController(s: C.State, outcome: C.Outcome, k: Key)
    requires !s.worker.Idle? && k in C.Do(s, C.Call(outcome)).policies
    requires !(k in s.policies && PruneSelects(s.policies[k].labels)) && PruneSelects(C.Do(s, C.Call(outcome)).policies[k].labels)
    ensures s.worker.Writing? && k == C.Target(s.worker)
  {
    C.CallFrame(s, outcome);
  }

  lemma WhoPutsInShoot(w: World, a: C.Action, k: Key)
    requires !Selected(w, k) && Selected(ShootStep(w, a), k)
    ensures || (a.PutPolicy? && a.key == k && PruneSelects(a.labels))
            || (w.running && a.Call? && w.shoot.worker.Writing? && k == C.Target(w.shoot.worker))
  {
    if a.Call? && w.running && !w.shoot.worker.Idle? {
      CallOfController(w.shoot, a.outcome, k);
    }
  }

  /** A user stored it, or the running controller wrote it. */
  lemma WhoPutsPolicy(w: World, e: EnvAction, k: Key)
    requires PutsPolicy(w, e, k)
    ensures e.Shoot?
    ensures || (e.action.PutPolicy? && e.action.key == k && PruneSelects(e.action.labels))
            || (w.running && e.action.Call? && w.shoot.worker.Writing? && k == C.Target(w.shoot.worker))
  {
    match e
    case Shoot(a) => WhoPutsInShoot(w, a, k);
    case Sync => SyncSelects(w, k);
    case _ =>
  }

  /** The step of others makes the object an orphan. */
  predicate PutsOrphan(w: World, e: EnvAction, k: ObjectKey) {
    !OrphanAt(w, k) && OrphanAt(EnvStep(w, e), k)
  }

  /** Somebody stored it, since no bundle holds orphans. */
  lemma WhoPutsOrphan(w: World, e: EnvAction, k: ObjectKey)
    requires PutsOrphan(w, e, k) && TidyBundle(w)
    ensures e.PutObject? && e.object_ == k && Orphan(k, e.labels)
  {
    StepElsewhere(w, e);
  }

  /** Step i of others before call y put the policy, or the orphan, there. */
  predicate PolicyPutAt(start: World, steps: seq<Step>, y: nat, i: nat, k: Key)
    requires y < |steps| && i < |steps[y].others|
  {
    PutsPolicy(EnvRun(At(start, steps, y), steps[y].others[..i]), steps[y].others[i], k)
  }

  predicate OrphanPutAt(start: World, steps: seq<Step>, y: nat, i: nat, k: ObjectKey)
    requires y < |steps| && i < |steps[y].others|
  {
    PutsOrphan(EnvRun(At(start, steps, y), steps[y].others[..i]), steps[y].others[i], k)
  }

  ghost predicate PolicyPut(start: World, n: nat, steps: seq<Step>, k: Key) {
    exists y, i :: n <= y < |steps| && 0 <= i < |steps[y].others| && PolicyPutAt(start, steps, y, i, k)
  }

  ghost predicate OrphanPut(start: World, n: nat, steps: seq<Step>, k: ObjectKey) {
    exists y, i :: n <= y < |steps| && 0 <= i < |steps[y].others| && OrphanPutAt(start, steps, y, i, k)
  }

  lemma {:induction false} SomeStepPutPolicy(w: World, es: seq<EnvAction>, k: Key) returns (i: nat)
    requires !Selected(w, k) && Selected(EnvRun(w, es), k)
    ensures i < |es| && PutsPolicy(EnvRun(w, es[..i]), es[i], k)
    decreases |es|
  {
    var init, last := es[..|es| - 1], es[|es| - 1];
    assert es == init + [last];
    EnvRunConcat(w, init, [last]);
    assert EnvRun(EnvRun(w, init), [last]) == EnvStep(EnvRun(w, init), last) by { assert [last][1..] == []; }
    if Selected(EnvRun(w, init), k) {
      i := SomeStepPutPolicy(w, init, k);
      assert init[..i] == es[..i];
    } else {
      i := |es| - 1;
    }
  }

  lemma {:induction false} SomeStepPutOrphan(w: World, es: seq<EnvAction>, k: ObjectKey) returns (i: nat)
    requires !OrphanAt(w, k) && OrphanAt(EnvRun(w, es), k)
    ensures i < |es| && PutsOrphan(EnvRun(w, es[..i]), es[i], k)
    decreases |es|
  {
    var init, last := es[..|es| - 1], es[|es| - 1];
    assert es == init + [last];
    EnvRunConcat(w, init, [last]);
    assert EnvRun(EnvRun(w, init), [last]) == EnvStep(EnvRun(w, init), last) by { assert [last][1..] == []; }
    if OrphanAt(EnvRun(w, init), k) {
      i := SomeStepPutOrphan(w, init, k);
      assert init[..i] == es[..i];
    } else {
      i := |es| - 1;
    }
  }

  /** The actuator's own calls put neither. */
  lemma CallPutsNothing(w: World, c: Call)
    ensures forall k :: Selected(Effect(w, c), k) ==> Selected(w, k)
    ensures forall k :: OrphanAt(Effect(w, c), k) ==> OrphanAt(w, k)
  {
  }

  lemma {:induction false} PolicyAppears(start: World, steps: seq<Step>, i: nat, j: nat, k: Key)
    requires IsHistory(start, steps) && i <= j <= |steps| && !Selected(At(start, steps, i), k) && Selected(At(start, steps, j), k)
    ensures PolicyPut(start, i, steps, k)
    decreases j
  {
    if Selected(At(start, steps, j - 1), k) {
      PolicyAppears(start, steps, i, j - 1, k);
    } else {
      AtNext(start, steps, j - 1);
      CallPutsNothing(steps[j - 1].met, steps[j - 1].call);
      var x := SomeStepPutPolicy(At(start, steps, j - 1), steps[j - 1].others, k);
      assert PolicyPutAt(start, steps, j - 1, x, k);
    }
  }

  lemma {:induction false} OrphanAppears(start: World, steps: seq<Step>, i: nat, j: nat, k: ObjectKey)
    requires IsHistory(start, steps) && i <= j <= |steps| && !OrphanAt(At(start, steps, i), k) && OrphanAt(At(start, steps, j), k)
    ensures OrphanPut(start, i, steps, k)
    decreases j
  {
    if OrphanAt(At(start, steps, j - 1), k) {
      OrphanAppears(start, steps, i, j - 1, k);
    } else {
      AtNext(start, steps, j - 1);
      CallPutsNothing(steps[j - 1].met, steps[j - 1].call);
      var x := SomeStepPutOrphan(At(start, steps, j - 1), steps[j - 1].others, k);
      assert OrphanPutAt(start, steps, j - 1, x, k);
    }
  }

  /** So whatever of its kind is there after a complete prune was put there during it
      by a step of others. */
  lemma LeftPolicyWasPut(start: World, n: nat, steps: seq<Step>, k: Key)
    requires IsHistory(start, steps) && SawUnselected(n, steps, k) && Selected(At(start, steps, |steps|), k)
    ensures PolicyPut(start, n, steps, k)
  {
    var z :| n <= z < |steps| && (!Selected(Met(steps, z), k) || !Selected(Left(steps, z), k));
    AtNext(start, steps, z);
    CallPutsNothing(steps[z].met, steps[z].call);
    PolicyAppears(start, steps, z + 1, |steps|, k);
    var y, i :| z + 1 <= y < |steps| && 0 <= i < |steps[y].others| && PolicyPutAt(start, steps, y, i, k);
  }

  /** And likewise after a complete sweep. */
  lemma LeftOrphanWasPut(start: World, n: nat, steps: seq<Step>, k: ObjectKey)
    requires IsHistory(start, steps) && SawNoOrphan(n, steps, k) && OrphanAt(At(start, steps, |steps|), k)
    ensures OrphanPut(start, n, steps, k)
  {
    var z :| n <= z < |steps| && (!OrphanAt(Met(steps, z), k) || !OrphanAt(Left(steps, z), k));
    AtNext(start, steps, z);
    CallPutsNothing(steps[z].met, steps[z].call);
    OrphanAppears(start, steps, z + 1, |steps|, k);
    var y, i :| z + 1 <= y < |steps| && 0 <= i < |steps[y].others| && OrphanPutAt(start, steps, y, i, k);
  }
}
