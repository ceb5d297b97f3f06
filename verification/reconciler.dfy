/** The reconcile loop as the imperative code it is. Its API calls act on the
    whole system, other parts of which move between any two calls; every
    reconcile is shown to be a run of the step system. */
module Reconcilers {
  import opened Kube
  import opened Constants
  import opened DataPlane
  import opened Watches
  import opened Controller
  import opened ControllerSafety

  /** What the rest of the system does before an API call, and how the call ends. */
  datatype Slot = Slot(others: seq<Action>, outcome: Outcome)

  /** Steps of anybody but the worker and the process that hosts it. */
  predicate Bystander(a: Action) {
    External(a) || a.DeliverGateway? || a.DeliverPolicy?
  }

  class Reconciler {
    var system: State
    var calls: nat
    const schedule: nat -> Slot
    ghost const start: State
    ghost var trace: seq<Action>

    /** The system is where the recorded actions lead from the start. */
    ghost predicate Valid()
      reads this
    {
      IsAt(system)
    }

    ghost predicate IsAt(s: State)
      reads this
    {
      && s == Run(start, trace)
      && (forall n, a :: a in schedule(n).others ==> Bystander(a))
      && (forall a :: a in trace ==> Bystander(a) || a.Call?)
    }

    constructor (system: State, schedule: nat -> Slot)
      requires forall n, a :: a in schedule(n).others ==> Bystander(a)
      ensures Valid() && this.system == system && start == system && trace == [] && this.schedule == schedule
    {
      this.system, this.schedule, this.calls := system, schedule, 0;
      this.start, this.trace := system, [];
    }

    /** The others move; the worker stays where it is. */
    method Others()
      requires Valid()
      modifies this`system, this`trace
      ensures Valid() && trace == old(trace) + schedule(calls).others
      ensures system == Run(old(system), schedule(calls).others)
      ensures system.worker == old(system).worker
    {
      var others := schedule(calls).others;
      RunConcat(start, trace, others);
      BystandersKeepWorker(system, others);
      system := Run(system, others);
      trace := trace + others;
    }

    /** The call that is made is the worker's next step. */
    method Record(ghost before: State)
      requires IsAt(before) && !before.worker.Idle? && system == Do(before, Call(schedule(calls).outcome))
      modifies this`trace, this`calls
      ensures Valid() && calls == old(calls) + 1
      ensures trace == old(trace) + [Call(schedule(old(calls)).outcome)]
    {
      ghost var a := Call(schedule(calls).outcome);
      RunConcat(start, trace, [a]);
      assert Run(before, [a]) == Do(before, a) by { assert [a][1..] == []; }
      trace := trace + [a];
      calls := calls + 1;
    }

    /** A read from a cache. What it decides is where the worker goes. */
    method Read() returns (failed: bool)
      requires Valid() && (system.worker.Listing? || system.worker.Reading?)
      modifies this`system, this`trace, this`calls
      ensures Valid() && old(trace) <= trace
      ensures system == Do(old(system), Call(schedule(old(calls)).outcome))
      ensures failed == !schedule(old(calls)).outcome.Answered?
    {
      failed := !schedule(calls).outcome.Answered?;
      system := if failed then Requeue(system) else Answer(system);
      Record(old(system));
    }

    /** Creates the policy, or updates it on the basis of what was read; the API
        server refuses a create of an existing name, and an update of another
        version or of a missing object. */
    method Write(k: Key, labels: Labels, spec: PolicySpec, basis: Option<Stored>) returns (failed: bool)
      requires Valid() && system.worker.Writing? && k == Target(system.worker) && basis == system.worker.basis
      requires labels == Desired(k.namespace, system.worker.hop).labels && spec == Desired(k.namespace, system.worker.hop).spec
      modifies this`system, this`trace, this`calls
      ensures Valid() && old(trace) <= trace
      ensures system == Do(old(system), Call(schedule(old(calls)).outcome))
      ensures failed == (!schedule(old(calls)).outcome.Answered? || Refused(old(system)))
    {
      var outcome := schedule(calls).outcome;
      var refused := if basis.None? then k in system.policies
                     else k !in system.policies || system.policies[k].resourceVersion != basis.value.resourceVersion;
      failed := !outcome.Answered? || refused;
      if !outcome.Lost? && !refused {
        system := StorePolicy(system, k, labels, spec, if basis.Some? then basis.value.annotations else map[]);
      }
      system := if failed then Requeue(system) else Advance(system);
      Record(old(system));
    }

    /** Deletes the policy; an absent one is fine. */
    method Remove(k: Key) returns (failed: bool)
      requires Valid() && system.worker.Deleting? && k == Target(system.worker)
      modifies this`system, this`trace, this`calls
      ensures Valid() && old(trace) <= trace
      ensures system == Do(old(system), Call(schedule(old(calls)).outcome))
      ensures failed == !schedule(old(calls)).outcome.Answered?
    {
      var outcome := schedule(calls).outcome;
      failed := !outcome.Answered?;
      if !outcome.Lost? {
        system := DropPolicy(system, k);
      }
      system := if failed then Requeue(system) else Advance(system);
      Record(old(system));
    }

    /** Whether the cached Gateways of the namespace include a managed one. */
    method NamespaceHasManagedGateway(ns: string) returns (has: bool, failed: bool)
      requires Valid() && system.worker == Listing(ns)
      modifies this`system, this`trace, this`calls
      ensures Valid() && old(trace) <= trace
      ensures failed ==> system.worker.Idle? && ns in system.queue
      ensures !failed ==> has == Wanted(system.gatewayInformer.cache, ns)
      ensures !failed ==> system.worker == if has then Reading(ns, ProxyIngress) else Deleting(ns, ProxyIngress)
    {
      Others();
      failed := Read();
      has := false;
      if failed { return; }
      var items := system.gatewayInformer.cache;
      var left := items.Keys;
      while left != {}
        invariant left <= items.Keys
        invariant forall k :: k in items && k !in left && k.namespace == ns ==> !IsManagedGateway(items[k])
        decreases left
      {
        var k :| k in left;
        if k.namespace == ns && items[k].className == GATEWAY_CLASS_NAME {
          has := true;
          return;
        }
        left := left - {k};
      }
    }

    /** Creates or updates one policy: read it, leave it alone if it is in sync,
        otherwise write it on the basis of what was read. */
    method Apply(desired: NetworkPolicy, hop: Hop) returns (failed: bool)
      requires Valid() && desired == Desired(desired.namespace, hop)
      requires system.worker == Reading(desired.namespace, hop)
      modifies this`system, this`trace, this`calls
      ensures Valid() && old(trace) <= trace
      ensures failed ==> system.worker.Idle? && desired.namespace in system.queue
      ensures !failed && hop.ProxyIngress? ==> system.worker == Reading(desired.namespace, ProxyEgress)
      ensures !failed && hop.ProxyEgress? ==> system.worker == Idle
    {
      Others();
      var cache := system.policyInformer.cache;
      failed := Read();
      if failed { return; }
      var k := desired.ObjectKey();
      var basis := if k in cache then Some(cache[k]) else None;
      if basis.Some? && basis.value.labels == desired.labels && basis.value.spec == desired.spec {
        return;
      }
      Others();
      failed := Write(k, desired.labels, desired.spec, basis);
    }

    /** Deletes both policies of the namespace, ignoring absent ones. */
    method PruneNamespace(ns: string) returns (failed: bool)
      requires Valid() && system.worker == Deleting(ns, ProxyIngress)
      modifies this`system, this`trace, this`calls
      ensures Valid() && old(trace) <= trace
      ensures system.worker.Idle?
      ensures failed ==> ns in system.queue
    {
      var names := [DATA_PLANE_POLICY_NAME, PROXY_EGRESS_POLICY_NAME];
      var i := 0;
      failed := false;
      while i < |names|
        invariant 0 <= i <= |names|
        invariant Valid() && old(trace) <= trace
        invariant system.worker == if i == 2 then Idle else Deleting(ns, if i == 0 then ProxyIngress else ProxyEgress)
      {
        Others();
        failed := Remove(Key(ns, names[i]));
        if failed { return; }
        i := i + 1;
      }
    }

    /** One reconcile request. It ends with the worker idle; a failure leaves the
        namespace queued. Between start and end the system only took steps of
        bystanders and the calls of this reconcile, so what holds of every
        visible run of the step system holds here. */
    method Reconcile(ns: string) returns (failed: bool)
      requires Valid() && system.worker == Listing(ns)
      modifies this`system, this`trace, this`calls
      ensures Valid() && old(trace) <= trace
      ensures system.worker.Idle?
      ensures failed ==> ns in system.queue
      ensures Healthy(start) && Visible(start, trace) ==>
                Healthy(system) && (Agrees(system, ns) || Signalled(system, ns))
    {
      var has;
      has, failed := NamespaceHasManagedGateway(ns);
      if !failed {
        if !has {
          failed := PruneNamespace(ns);
        } else {
          failed := Apply(Desired(ns, ProxyIngress), ProxyIngress);
          if !failed {
            failed := Apply(Desired(ns, ProxyEgress), ProxyEgress);
          }
        }
      }
      if Healthy(start) && Visible(start, trace) {
        RunKeepsHealthy(start, trace);
        assert Accounted(system, ns);
      }
    }
  }

  lemma {:induction false} BystandersKeepWorker(s: State, actions: seq<Action>)
    requires forall a :: a in actions ==> Bystander(a)
    ensures Run(s, actions).worker == s.worker
    decreases |actions|
  {
    if actions != [] {
      assert actions[0] in actions;
      assert forall a :: a in actions[1..] ==> a in actions;
      BystandersKeepWorker(Act(s, actions[0]), actions[1..]);
    }
  }
}
