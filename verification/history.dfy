/** Histories of the actuator: the API calls it makes, in order, with what others
    did before each and how it ended. The world is the replay of its history, and
    a call changes it in the one way given here. */
module Histories {
  import opened Kube
  import opened Worlds
  import opened Environment
  import C = Controller

  datatype Call =
    | GetCluster
    | ListGateways
    | DeleteGateway(gateway: Key)
    | PollGateways
    | ClearFinalizer
    | WriteSecrets
    | DeleteSecrets
    | WriteResource(bundle: Objects)
    | KeepObjects
    | DeleteResource
    | AwaitResource
    | WriteAccessSecret
    | BuildDeployment
    | WriteDeployment(deployment: NetpolDeployment)
    | GetDeployment
    | ScaleDeployment
    | DeleteDeployment
    | DeleteAccessSecret
    | ListPolicies
    | DeletePolicy(policy: Key)
    | ListObjects(kind: Kind)
    | DeleteObject(object_: ObjectKey)

  /** Creating or updating the ManagedResource, which resets the keep flag. */
  function PutResource(w: World, bundle: Objects): World {
    w.(resource := Some(
         if w.resource.Some? then w.resource.value.(bundle := bundle, keepObjects := false)
         else ManagedResource(bundle, {}, false, false)))
  }

  /** What a call does to the world. A Gateway that is deleted vanishes later, a
      ManagedResource with the next sync. */
  function Effect(w: World, c: Call): World {
    match c
    case DeleteGateway(k) => if k in w.shoot.gateways then w.(terminating := w.terminating + {k}) else w
    case WriteSecrets => w.(certificates := true)
    case DeleteSecrets => w.(certificates := false)
    case WriteResource(bundle) => PutResource(w, bundle)
    case KeepObjects =>
      if w.resource.Some? then w.(resource := Some(w.resource.value.(keepObjects := true))) else w
    case DeleteResource =>
      if w.resource.Some? then w.(resource := Some(w.resource.value.(deleting := true))) else w
    case WriteAccessSecret => w.(accessSecret := true)
    case WriteDeployment(d) => w.(deployment := Some(d))
    case ScaleDeployment =>
      if w.deployment.Some? then w.(deployment := Some(w.deployment.value.(replicas := 0)), running := false) else w
    case DeleteDeployment => w.(deployment := None, running := false)
    case DeleteAccessSecret => w.(accessSecret := false)
    case DeletePolicy(k) => w.(shoot := C.DropPolicy(w.shoot, k))
    case DeleteObject(k) => w.(objects := w.objects - {k})
    case _ => w
  }

  /** The part of the world a call may change. */
  datatype Area = Nothing | Certs | Seed | Start | Deliver | Flag | Retire | Gateways | Policies | Sweep

  function AreaOf(c: Call): Area {
    match c
    case DeleteGateway(_) => Gateways
    case ClearFinalizer => Gateways
    case WriteSecrets => Certs
    case DeleteSecrets => Certs
    case WriteResource(_) => Deliver
    case KeepObjects => Flag
    case DeleteResource => Retire
    case WriteAccessSecret => Seed
    case WriteDeployment(_) => Start
    case ScaleDeployment => Seed
    case DeleteDeployment => Seed
    case DeleteAccessSecret => Seed
    case DeletePolicy(_) => Policies
    case DeleteObject(_) => Sweep
    case _ => Nothing
  }

  // ---- Steps and histories ----

  /** A call: what others did before it, the world it met, how it ended, and the
      world it left. */
  datatype Step = Step(others: seq<EnvAction>, met: World, call: Call, outcome: C.Outcome, after: World)

  /** The step that a call takes from a world. */
  function TakeStep(w: World, others: seq<EnvAction>, call: Call, outcome: C.Outcome): Step {
    var met := EnvRun(w, others);
    Step(others, met, call, outcome, if outcome.Lost? then met else Effect(met, call))
  }

  /** The world that call i met, and the one it left. */
  function Met(steps: seq<Step>, i: nat): World
    requires i < |steps|
  {
    steps[i].met
  }

  function Left(steps: seq<Step>, i: nat): World
    requires i < |steps|
  {
    steps[i].after
  }

  /** The world after the first i steps. */
  function At(start: World, steps: seq<Step>, i: nat): World
    requires i <= |steps|
  {
    if i == 0 then start else steps[i - 1].after
  }

  /** Every step follows from the world before it: others moved, and the call had
      its effect unless it was lost. */
  ghost predicate IsHistory(start: World, steps: seq<Step>) {
    forall i {:trigger Linked(start, steps, i)} :: 0 <= i < |steps| ==> Linked(start, steps, i)
  }

  predicate Linked(start: World, steps: seq<Step>, i: nat)
    requires i < |steps|
  {
    steps[i] == TakeStep(At(start, steps, i), steps[i].others, steps[i].call, steps[i].outcome)
  }

  lemma HistoryAppend(start: World, steps: seq<Step>, s: Step)
    requires IsHistory(start, steps)
    requires s == TakeStep(At(start, steps, |steps|), s.others, s.call, s.outcome)
    ensures IsHistory(start, steps + [s])
  {
    forall i | 0 <= i < |steps + [s]|
      ensures Linked(start, steps + [s], i)
    {
      assert i < |steps| ==> Linked(start, steps, i);
    }
  }

  lemma HistoryPrefix(start: World, steps: seq<Step>, more: seq<Step>)
    requires IsHistory(start, more) && steps <= more
    ensures IsHistory(start, steps)
  {
    forall i | 0 <= i < |steps|
      ensures Linked(start, steps, i)
    {
      assert Linked(start, more, i);
    }
  }

  lemma AtNext(start: World, steps: seq<Step>, i: nat)
    requires IsHistory(start, steps) && i < |steps|
    ensures steps[i].met == EnvRun(At(start, steps, i), steps[i].others)
    ensures At(start, steps, i + 1) == if steps[i].outcome.Lost? then steps[i].met else Effect(steps[i].met, steps[i].call)
  {
    assert Linked(start, steps, i);
  }

  // ---- What was called in a stretch of a history ----

  /** The calls added to a history change nothing outside the given areas. */
  ghost predicate Within(before: seq<Step>, after: seq<Step>, areas: set<Area>) {
    before <= after && forall i :: |before| <= i < |after| ==> Stays(after[i], areas)
  }

  predicate Stays(s: Step, areas: set<Area>) {
    AreaOf(s.call).Nothing? || AreaOf(s.call) in areas
  }

  lemma WithinOn(a: seq<Step>, b: seq<Step>, c: seq<Step>, first: set<Area>, second: set<Area>, areas: set<Area>)
    requires Within(a, b, first) && Within(b, c, second) && first <= areas && second <= areas
    ensures Within(a, c, areas)
  {
    forall x | |a| <= x < |c|
      ensures Stays(c[x], areas)
    {
      assert x < |b| ==> Stays(b[x], first);
      assert x >= |b| ==> Stays(c[x], second);
    }
  }

  lemma AreasOf(before: seq<Step>, after: seq<Step>, areas: set<Area>)
    requires Within(before, after, areas)
    ensures forall x :: |before| <= x < |after| ==> AreaOf(after[x].call) in areas + {Nothing}
  {
    assert forall x :: |before| <= x < |after| ==> Stays(after[x], areas);
  }

  /** The calls added to a history are the first ones of the script. */
  ghost predicate Issues(before: seq<Step>, after: seq<Step>, script: seq<Call>) {
    && before <= after && |after| <= |before| + |script|
    && forall i :: |before| <= i < |after| ==> after[i].call == script[i - |before|]
  }

  /** The calls of the script, in order, up to the first that is not answered. */
  ghost predicate Runs(before: seq<Step>, after: seq<Step>, script: seq<Call>) {
    && Issues(before, after, script)
    && forall i :: |before| <= i < |after| - 1 ==> after[i].outcome.Answered?
  }

  /** All calls of the script, each answered. */
  ghost predicate Completes(before: seq<Step>, after: seq<Step>, script: seq<Call>) {
    && Issues(before, after, script) && |after| == |before| + |script|
    && forall i :: |before| <= i < |after| ==> after[i].outcome.Answered?
  }

  lemma RunsOn(a: seq<Step>, b: seq<Step>, c: seq<Step>, first: seq<Call>, second: seq<Call>)
    requires Completes(a, b, first) && Runs(b, c, second)
    ensures Runs(a, c, first + second)
    ensures Completes(b, c, second) ==> Completes(a, c, first + second)
  {
  }

  /** One of the calls added was not answered. */
  ghost predicate Unanswered(before: seq<Step>, after: seq<Step>) {
    exists i :: |before| <= i < |after| && !after[i].outcome.Answered?
  }

  /** The last call added was not answered. */
  ghost predicate CutOff(before: seq<Step>, after: seq<Step>) {
    |before| < |after| && !after[|after| - 1].outcome.Answered?
  }

  /** Calls whose failure is logged and passed over: those of the sweep, and those on
      Gateways and their class while the shoot is being deleted. */
  predicate Tolerated(c: Call, deleting: bool) {
    || c.ListObjects? || c.DeleteObject?
    || (deleting && (c.ListGateways? || c.DeleteGateway? || c.PollGateways? || c.ClearFinalizer?))
  }

  /** The last call added was not answered, and is one that ends an operation. */
  ghost predicate Halted(before: seq<Step>, after: seq<Step>, deleting: bool) {
    CutOff(before, after) && !Tolerated(after[|after| - 1].call, deleting)
  }

  /** The deletion of the ManagedResource was called and answered, so was the wait, and
      it is still there. */
  ghost predicate StuckAtWait(before: seq<Step>, after: seq<Step>, w: World) {
    && |before| + 2 <= |after| && w.resource.Some?
    && after[|after| - 2].call == DeleteResource && after[|after| - 2].outcome.Answered?
    && after[|after| - 1].call == AwaitResource && after[|after| - 1].outcome.Answered?
  }

  lemma UnansweredLonger(a: seq<Step>, b: seq<Step>, c: seq<Step>, d: seq<Step>)
    requires a <= b <= c <= d && Unanswered(b, c)
    ensures Unanswered(a, d)
  {
    var i :| |b| <= i < |c| && !c[i].outcome.Answered?;
    assert d[i] == c[i];
  }

  /** Call i left everything outside the areas as it met it. */
  ghost predicate Spares(w: World, w': World, areas: set<Area>) {
    && (Policies !in areas ==> w'.shoot == w.shoot)
    && (Gateways !in areas ==> w'.terminating == w.terminating)
    && (Sweep !in areas ==> w'.objects == w.objects)
    && (Deliver !in areas && Flag !in areas && Retire !in areas ==> w'.resource == w.resource)
    && (Certs !in areas ==> w'.certificates == w.certificates)
    && (Seed !in areas && Start !in areas ==>
          w'.deployment == w.deployment && w'.running == w.running && w'.accessSecret == w.accessSecret)
  }

  lemma EffectSpares(w: World, c: Call, areas: set<Area>)
    requires AreaOf(c).Nothing? || AreaOf(c) in areas
    ensures Spares(w, Effect(w, c), areas)
  {
  }

  /** In a stretch of calls within the areas, whatever changes outside them was
      changed by others. */
  lemma CallsSpare(start: World, before: seq<Step>, after: seq<Step>, areas: set<Area>, i: nat)
    requires IsHistory(start, after) && Within(before, after, areas) && |before| <= i < |after|
    ensures Spares(after[i].met, after[i].after, areas)
  {
    AtNext(start, after, i);
    assert Stays(after[i], areas);
    EffectSpares(after[i].met, after[i].call, areas);
  }

  // ---- Lasting facts ----

  /** The call is made in a world in which it does no harm to the order of things:
      no secret goes while the Deployment is there, no Deployment comes without
      it, no certificates go while the ManagedResource is there, no ManagedResource
      comes without them, and no bundle holds an orphan. */
  predicate Careful(w: World, c: Call) {
    && (c.DeleteAccessSecret? ==> w.deployment.None?)
    && (c.WriteDeployment? ==> w.accessSecret && c.deployment.replicas > 0)
    && (c.DeleteSecrets? ==> w.resource.None?)
    && (c.WriteResource? ==> w.certificates && NoOrphans(c.bundle))
  }

  lemma CarefulKeepsSound(w: World, c: Call)
    requires Sound(w) && Careful(w, c)
    ensures Sound(Effect(w, c)) && (Certified(w) ==> Certified(Effect(w, c)))
  {
  }

  lemma StepKeepsSound(w: World, others: seq<EnvAction>, call: Call, outcome: C.Outcome)
    requires Sound(w) && Careful(w, call)
    ensures Elsewhere(w, TakeStep(w, others, call, outcome).met) && Sound(TakeStep(w, others, call, outcome).after)
    ensures Certified(w) ==> Certified(TakeStep(w, others, call, outcome).after)
  {
    RunElsewhere(w, others);
    CarefulKeepsSound(EnvRun(w, others), call);
  }

  /** The ManagedResource is deleted only once the controller's Deployment and secret
      are gone. */
  predicate TornDownFirst(before: seq<Step>, after: seq<Step>) {
    forall i :: |before| <= i < |after| && after[i].call.DeleteResource? ==>
      after[i].met.deployment.None? && !after[i].met.accessSecret
  }

  lemma NoRetirement(before: seq<Step>, after: seq<Step>, areas: set<Area>)
    requires Within(before, after, areas) && Retire !in areas
    ensures TornDownFirst(before, after)
  {
    AreasOf(before, after, areas);
  }

  /** A stretch that ends without them, and one that leaves them alone. */
  lemma RetiredAfterTeardown(start: World, a: seq<Step>, b: seq<Step>, c: seq<Step>, first: set<Area>, second: set<Area>)
    requires IsHistory(start, c) && Within(a, b, first) && Within(b, c, second) && Retire !in first && second !! {Seed, Start}
    requires At(start, b, |b|).deployment.None? && !At(start, b, |b|).accessSecret
    ensures TornDownFirst(a, c)
  {
    NoRetirement(a, b, first);
    AreasOf(b, c, second);
    forall i | |b| <= i < |c|
      ensures c[i].met.deployment.None? && !c[i].met.accessSecret
    {
      SeedStays(start, c, |b|, i);
      AtNext(start, c, i);
      RunElsewhere(At(start, c, i), c[i].others);
    }
  }

  lemma {:induction false} SeedStays(start: World, steps: seq<Step>, i: nat, j: nat)
    requires IsHistory(start, steps) && i <= j <= |steps|
    requires forall x :: i <= x < j ==> !AreaOf(steps[x].call).Seed? && !AreaOf(steps[x].call).Start?
    ensures var w, w' := At(start, steps, i), At(start, steps, j);
            w'.deployment == w.deployment && w'.accessSecret == w.accessSecret
    decreases j
  {
    if i < j {
      SeedStays(start, steps, i, j - 1);
      AtNext(start, steps, j - 1);
      RunElsewhere(At(start, steps, j - 1), steps[j - 1].others);
      EffectSpares(steps[j - 1].met, steps[j - 1].call, {AreaOf(steps[j - 1].call)});
    }
  }

  lemma SeedStaysWithin(start: World, before: seq<Step>, after: seq<Step>, areas: set<Area>)
    requires IsHistory(start, after) && Within(before, after, areas) && Seed !in areas && Start !in areas
    ensures var w, w' := At(start, before, |before|), At(start, after, |after|);
            w'.deployment == w.deployment && w'.accessSecret == w.accessSecret
  {
    AreasOf(before, after, areas);
    SeedStays(start, after, |before|, |after|);
  }

  lemma {:induction false} CertificatesStay(start: World, steps: seq<Step>, i: nat, j: nat)
    requires IsHistory(start, steps) && i <= j <= |steps|
    requires forall x :: i <= x < j ==> !AreaOf(steps[x].call).Certs?
    ensures At(start, steps, j).certificates == At(start, steps, i).certificates
    decreases j
  {
    if i < j {
      CertificatesStay(start, steps, i, j - 1);
      AtNext(start, steps, j - 1);
      RunElsewhere(At(start, steps, j - 1), steps[j - 1].others);
      EffectSpares(steps[j - 1].met, steps[j - 1].call, {AreaOf(steps[j - 1].call)});
    }
  }

  lemma CertificatesStayWithin(start: World, before: seq<Step>, after: seq<Step>, areas: set<Area>)
    requires IsHistory(start, after) && Within(before, after, areas) && Certs !in areas
    ensures At(start, after, |after|).certificates == At(start, before, |before|).certificates
  {
    AreasOf(before, after, areas);
    CertificatesStay(start, after, |before|, |after|);
  }

  /** Without a new Deployment, a stopped controller stays stopped, and policies
      of its kind only become fewer, as long as nobody else writes them. */
  lemma {:induction false} StoppedStays(start: World, steps: seq<Step>, i: nat, j: nat)
    requires IsHistory(start, steps) && i <= j <= |steps|
    requires forall x :: i <= x < j ==> !AreaOf(steps[x].call).Start? && Tame(steps[x].others)
    ensures NoNewPolicies(At(start, steps, i), At(start, steps, j))
    decreases j
  {
    if i < j {
      StoppedStays(start, steps, i, j - 1);
      AtNext(start, steps, j - 1);
      RunElsewhere(At(start, steps, j - 1), steps[j - 1].others);
      EffectKeepsStopped(steps[j - 1].met, steps[j - 1].call);
    }
  }

  lemma EffectKeepsStopped(w: World, c: Call)
    requires !AreaOf(c).Start?
    ensures NoNewPolicies(w, Effect(w, c))
  {
  }

  /** Without a new bundle, orphans only become fewer, as long as nobody else
      makes new ones. */
  lemma {:induction false} OrphansShrink(start: World, steps: seq<Step>, i: nat, j: nat)
    requires IsHistory(start, steps) && i <= j <= |steps| && TidyBundle(At(start, steps, i))
    requires forall x :: i <= x < j ==> !AreaOf(steps[x].call).Deliver? && Tidy(steps[x].others)
    ensures TidyBundle(At(start, steps, j)) && NoNewOrphans(At(start, steps, i), At(start, steps, j))
    decreases j
  {
    if i < j {
      OrphansShrink(start, steps, i, j - 1);
      AtNext(start, steps, j - 1);
      RunElsewhere(At(start, steps, j - 1), steps[j - 1].others);
      EffectKeepsTidy(steps[j - 1].met, steps[j - 1].call);
    }
  }

  lemma EffectKeepsTidy(w: World, c: Call)
    requires !AreaOf(c).Deliver?
    ensures (TidyBundle(w) ==> TidyBundle(Effect(w, c))) && NoNewOrphans(w, Effect(w, c))
  {
  }

  /** The resource manager synced before one of the calls. */
  ghost predicate Synced(steps: seq<Step>, i: nat, j: nat)
    requires i <= j <= |steps|
  {
    exists x :: i <= x < j && Sync in steps[x].others
  }

  lemma EffectOnDeletion(w: World, c: Call)
    requires !AreaOf(c).Retire?
    ensures InDeletion(Effect(w, c)) <==> InDeletion(w)
    ensures InDeletion(w) ==> Effect(w, c).resource.value.applied == w.resource.value.applied
  {
  }

  /** Deletions of the ManagedResource come from the actuator's own call alone:
      outside of it, a deletion is in flight exactly if it was and no sync came. */
  lemma {:induction false} DeletionPersists(start: World, steps: seq<Step>, i: nat, j: nat)
    requires IsHistory(start, steps) && i <= j <= |steps|
    requires forall x :: i <= x < j ==> !AreaOf(steps[x].call).Retire?
    ensures InDeletion(At(start, steps, j)) <==> InDeletion(At(start, steps, i)) && !Synced(steps, i, j)
    ensures InDeletion(At(start, steps, j)) ==>
              At(start, steps, j).resource.value.applied == At(start, steps, i).resource.value.applied
    decreases j
  {
    if i < j {
      DeletionPersists(start, steps, i, j - 1);
      AtNext(start, steps, j - 1);
      DeletionAcross(At(start, steps, j - 1), steps[j - 1].others);
      EffectOnDeletion(steps[j - 1].met, steps[j - 1].call);
      assert Synced(steps, i, j) <==> Synced(steps, i, j - 1) || Sync in steps[j - 1].others;
    }
  }

  lemma CallStartsDeletion(w: World, c: Call)
    requires InDeletion(Effect(w, c)) && !InDeletion(w)
    ensures c == DeleteResource
  {
  }

  lemma StepStartsDeletion(start: World, steps: seq<Step>, i: nat)
    requires IsHistory(start, steps) && i < |steps| && !InDeletion(At(start, steps, i)) && InDeletion(At(start, steps, i + 1))
    ensures steps[i].call == DeleteResource && !steps[i].outcome.Lost?
  {
    AtNext(start, steps, i);
    DeletionAcross(At(start, steps, i), steps[i].others);
    CallStartsDeletion(steps[i].met, steps[i].call);
  }

  /** So whenever a deletion appears, a delete call made it appear. */
  lemma {:induction false} DeletionHasACause(start: World, steps: seq<Step>, i: nat, j: nat)
    requires IsHistory(start, steps) && i <= j <= |steps|
    requires !InDeletion(At(start, steps, i)) && InDeletion(At(start, steps, j))
    ensures exists x :: i <= x < j && steps[x].call == DeleteResource && !steps[x].outcome.Lost?
    decreases j
  {
    if InDeletion(At(start, steps, j - 1)) {
      DeletionHasACause(start, steps, i, j - 1);
    } else {
      StepStartsDeletion(start, steps, j - 1);
    }
  }

  /** Reads and rejected requests: if no call has an area, the world is where the
      steps of others alone lead. */
  function OthersOf(steps: seq<Step>, i: nat, j: nat): seq<EnvAction>
    requires i <= j <= |steps|
    decreases j
  {
    if i == j then [] else OthersOf(steps, i, j - 1) + steps[j - 1].others
  }

  lemma {:induction false} EnvRunConcat(w: World, first: seq<EnvAction>, second: seq<EnvAction>)
    ensures EnvRun(w, first + second) == EnvRun(EnvRun(w, first), second)
    decreases |first|
  {
    if first == [] {
      assert first + second == second;
    } else {
      assert (first + second)[1..] == first[1..] + second;
      EnvRunConcat(EnvStep(w, first[0]), first[1..], second);
    }
  }

  /** Only others changed the world. */
  ghost predicate OnlyOthers(start: World, before: seq<Step>, after: seq<Step>)
    requires before <= after
  {
    At(start, after, |after|) == EnvRun(At(start, before, |before|), OthersOf(after, |before|, |after|))
  }

  lemma {:induction false} ReadsChangeNothing(start: World, before: seq<Step>, after: seq<Step>, j: nat)
    requires IsHistory(start, after) && Within(before, after, {}) && |before| <= j <= |after|
    ensures At(start, after, j) == EnvRun(At(start, after, |before|), OthersOf(after, |before|, j))
    decreases j
  {
    if |before| < j {
      ReadsChangeNothing(start, before, after, j - 1);
      AtNext(start, after, j - 1);
      assert Stays(after[j - 1], {});
      EnvRunConcat(At(start, after, |before|), OthersOf(after, |before|, j - 1), after[j - 1].others);
    }
  }
}
