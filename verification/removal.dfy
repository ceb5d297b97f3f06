/** What a delete removes from the shoot: the objects the ManagedResource applied, for
    every interleaving; and exactly what is left where the resource manager alone is at
    work. */
module Removals {
  import opened Worlds
  import opened Environment
  import opened Histories
  import opened Retention

  // ---- Objects that go with the ManagedResource ----

  /** The object goes with the ManagedResource, which has no keep flag: it was applied,
      or is not there yet. Without a ManagedResource, it is gone. */
  predicate Leaving(w: World, k: ObjectKey) {
    if w.resource.None? then k !in w.objects
    else !w.resource.value.keepObjects && (k in w.resource.value.applied || k !in w.objects)
  }

  lemma StepLeaving(w: World, e: EnvAction, k: ObjectKey)
    requires HandsOffAction(e, k) && Leaving(w, k)
    ensures Leaving(EnvStep(w, e), k)
  {
    if e.Shoot? {
      ShootStepFrame(w, e.action);
    }
  }

  lemma {:induction false} OthersLeaving(w: World, es: seq<EnvAction>, k: ObjectKey)
    requires HandsOff(es, k) && Leaving(w, k)
    ensures Leaving(EnvRun(w, es), k)
    decreases |es|
  {
    if es != [] {
      assert HandsOffAction(es[0], k);
      StepLeaving(w, es[0], k);
      OthersLeaving(EnvStep(w, es[0]), es[1..], k);
    }
  }

  lemma CallLeaving(w: World, c: Call, k: ObjectKey)
    requires Leaving(w, k) && !AreaOf(c).Deliver? && !AreaOf(c).Flag?
    ensures Leaving(Effect(w, c), k)
  {
  }

  lemma {:induction false} HistoryLeaving(start: World, steps: seq<Step>, i: nat, j: nat, k: ObjectKey)
    requires IsHistory(start, steps) && i <= j <= |steps| && Leaving(At(start, steps, i), k)
    requires forall x :: i <= x < j ==>
               HandsOff(steps[x].others, k) && !AreaOf(steps[x].call).Deliver? && !AreaOf(steps[x].call).Flag?
    ensures Leaving(At(start, steps, j), k)
    decreases j
  {
    if i < j {
      HistoryLeaving(start, steps, i, j - 1, k);
      AtNext(start, steps, j - 1);
      OthersLeaving(At(start, steps, j - 1), steps[j - 1].others, k);
      CallLeaving(steps[j - 1].met, steps[j - 1].call, k);
    }
  }

  /** Whatever interleaves, once the ManagedResource is gone after a stretch without
      delivery and keep flag, so is every object that was to go with it and that nobody
      but the resource manager touched. */
  lemma RemovedWithResource(start: World, before: seq<Step>, after: seq<Step>, areas: set<Area>)
    requires IsHistory(start, after) && Within(before, after, areas) && areas !! {Deliver, Flag}
    requires At(start, after, |after|).resource.None?
    ensures forall k :: LeftToSync(before, after, k) && Leaving(At(start, before, |before|), k) ==>
              k !in At(start, after, |after|).objects
  {
    AreasOf(before, after, areas);
    forall k | LeftToSync(before, after, k) && Leaving(At(start, before, |before|), k)
      ensures k !in At(start, after, |after|).objects
    {
      HistoryLeaving(start, after, |before|, |after|, k);
    }
  }

  // ---- Exactly what is left ----

  /** What a deletion of the ManagedResource leaves in the shoot, if nobody but the
      resource manager is at work. */
  function Remains(w: World): Objects {
    if w.resource.None? then w.objects
    else if w.resource.value.deleting then
      (if w.resource.value.keepObjects then w.objects else w.objects - w.resource.value.applied)
    else if w.resource.value.keepObjects then Applied(w)
    else w.objects - (w.resource.value.applied + w.resource.value.bundle.Keys)
  }

  /** The shoot once the bundle is applied. */
  function Applied(w: World): Objects
    requires w.resource.Some?
  {
    (w.objects - (w.resource.value.applied - w.resource.value.bundle.Keys)) + w.resource.value.bundle
  }

  /** Nothing the ManagedResource applied or carries is left if and only if its keep
      flag was not set, unless there is nothing it could keep. */
  lemma NothingRemainsIff(w: World)
    requires w.resource.Some? && !w.resource.value.deleting
    ensures (forall k :: k in w.resource.value.applied || k in w.resource.value.bundle ==> k !in Remains(w))
            <==> !w.resource.value.keepObjects || w.resource.value.bundle == map[]
  {
    var r := w.resource.value;
    if r.keepObjects && r.bundle != map[] {
      var k :| k in r.bundle;
      assert k in Remains(w);
    }
  }

  /** The course of such a deletion after the first sync. */
  predicate InCourse(w: World, v: World) {
    if w.resource.None? || w.resource.value.deleting then v.resource.None? && v.objects == Remains(w)
    else
      var r := w.resource.value.(applied := w.resource.value.bundle.Keys);
      || (v.resource.Some? && v.resource.value.(deleting := false) == r && v.objects == Applied(w))
      || (v.resource.None? && v.objects == Remains(w))
  }

  lemma RemainsAfterApplied(w: World)
    requires w.resource.Some? && !w.resource.value.deleting
    ensures Remains(w) == if w.resource.value.keepObjects then Applied(w) else Applied(w) - w.resource.value.bundle.Keys
  {
  }

  lemma FirstSync(w: World)
    ensures InCourse(w, SyncResource(w))
  {
  }

  lemma NextSync(w: World, v: World)
    requires InCourse(w, v)
    ensures InCourse(w, SyncResource(v))
  {
    if v.resource.Some? {
      RemainsAfterApplied(w);
      var r := v.resource.value;
      assert r.applied - r.bundle.Keys == {};
      assert v.objects + r.bundle == v.objects;
    }
  }

  lemma CallInCourse(w: World, v: World, c: Call)
    requires InCourse(w, v) && AreaOf(c) !in {Deliver, Flag, Sweep}
    ensures InCourse(w, Effect(v, c))
  {
  }

  lemma OneSync(w: World)
    ensures EnvRun(w, [Sync]) == SyncResource(w)
  {
    assert [Sync][1..] == [];
  }

  lemma {:induction false} StaysInCourse(start: World, steps: seq<Step>, j: nat)
    requires IsHistory(start, steps) && 0 < j <= |steps|
    requires forall i :: 0 <= i < j ==> steps[i].others == [Sync] && AreaOf(steps[i].call) !in {Deliver, Flag, Sweep}
    ensures InCourse(start, At(start, steps, j))
    decreases j
  {
    AtNext(start, steps, j - 1);
    OneSync(At(start, steps, j - 1));
    if j == 1 {
      FirstSync(start);
    } else {
      StaysInCourse(start, steps, j - 1);
      NextSync(start, At(start, steps, j - 1));
    }
    CallInCourse(start, steps[j - 1].met, steps[j - 1].call);
  }

  /** So a stretch of calls without delivery, keep flag and sweep, with a sync before
      each, after which the ManagedResource is gone leaves exactly what remains. */
  lemma LeavesWhatRemains(start: World, steps: seq<Step>, areas: set<Area>)
    requires IsHistory(start, steps) && steps != [] && Within([], steps, areas) && areas !! {Deliver, Flag, Sweep}
    requires forall i :: 0 <= i < |steps| ==> steps[i].others == [Sync]
    requires At(start, steps, |steps|).resource.None?
    ensures At(start, steps, |steps|).objects == Remains(start)
  {
    AreasOf([], steps, areas);
    StaysInCourse(start, steps, |steps|);
  }
}
