# Envoy Gateway extension: verified model

A Dafny model of the control logic of the Gardener extension that brings Envoy
Gateway to shoot clusters, with machine-checked proofs about it.

`dafny verify dfyconfig.toml` checks the whole project.

## What is modelled

**The data-plane policy controller** (`controller*.dfy`, `informers.dfy`,
`watches.dfy`, `reconciler.dfy`). A step system: the API server's Gateways and
network policies, one in-order stream of undelivered events per watched kind, a
cache per kind that lags behind by that stream, a deduplicating queue of
namespaces, and one worker whose program counter stands before an API call.
Actions are external edits, event deliveries, single API calls (answered, lost,
or carried out without the answer arriving) and restarts, which replay every
object as a creation and hold the worker back until both caches are filled.
Writes are refused as the API server refuses them: a create of an existing name,
an update of a missing object or of another resource version. The class
`Reconciler` is the imperative code; each of its reconciles is proved to be a
run of the step system.

**The meaning of the policies** (`data_plane.dfy`, `evaluator.dfy`,
`connectivity.dfy`, `end_to_end.dfy`). An evaluator for networking.k8s.io/v1
policies after "The two sorts of pod isolation" in the Kubernetes Network
Policies documentation, applied to the three policies the extension writes and
to every possible set of other policies.

**The actuator** (`actuator.dfy`, `history.dfy`, `environment.dfy`, `world.dfy`,
`cleanup.dfy`, `retention.dfy`, `removal.dfy`, `gateway_guard.dfy`,
`feature_switch.dfy`, `traffic.dfy`).
Reconcile, Delete, ForceDelete, Migrate and Restore as sequences of API calls
over a seed and a shoot. Every change the actuator makes is a call with a fixed
effect, recorded in a history: what others did before it, the world it met, how
it ended, the world it left. The class invariant says that the world is where
this history leads, so all claims about what was done are claims about the
world. Every call may fail, before or after taking effect, and ends the operation
where the code does. Before every call users, the running controller, the
gardener-resource-manager and anybody else take any number of steps, on Gateways,
policies and all other objects of the shoot.

**What is generated and admitted** (`guard.dfy`, `guard_policy.dfy`, `cel.dfy`,
`text.dfy`, `crds.dfy`, `provider_config.dfy`, `admission.dfy`). The generator of
the EnvoyProxy admission guard with a parser and an evaluator for the Common
Expression Language fragment it writes ("Field Selection" and "Logical
Operators" of the CEL language definition), the CRD splitter and merger, and the
shoot validator against the actuator's own checks.

Names, labels, ports and values that decide what the extension touches are also
stated written out, in lemmas of their own (`OrphanMeaning`, `SelectionMeaning`,
`DesiredMeaning` and so on).

## Main results

1. Drift is never lost: in every interleaving with stale caches and failing
   calls, a namespace whose policies disagree with its Gateways is queued, in
   process, or has an event in flight that will queue it; at rest every
   namespace agrees. This holds for an edit of a system at rest **if and only
   if** the watches can see the edit. They cannot see the last managed Gateway
   of a namespace being moved to another class, nor a data-plane policy losing
   its managed-by or hop label.
2. A restart heals everything, including unseen drift, and the controller always
   comes to rest: every step that does not fail lowers a lexicographic rank, so
   its own writes cannot feed themselves. Writes refused while the cache lags cannot
   go on forever either, as long as policy events keep being delivered. Whatever it
   repairs about a policy, annotations put there by others stay.
3. Whatever the controller deletes or writes is justified by Gateways the server
   held since the controller started.
4. The two policies add exactly the intended traffic, take nothing away if and
   only if the proxies were isolated before, and vanish without trace with the
   last Gateway; proxies of a reconciled namespace reach the control plane
   whatever other policies exist. From where a complete reconcile with the controller
   switched on ends, steps of the resource manager and the controller alone lead there,
   unless it revived a deletion (9).
5. Switching the feature off, tearing down before pruning, converges under
   interleaving; the reversed order leaves policies that nobody removes.
6. Prune and sweep delete only what one of their own listings found; at any point
   of failure every other policy and object survives, unless others change it: every
   object outside kube-system, of another kind or without both labels, through every
   sequence of operations. A
   complete one has seen everything of its kind gone: what is left was put there by
   a step of others, and if nobody makes more, nothing is left.
7. A delete removes the ManagedResource only after a finding of its own that
   permits it; a refused delete and a rejected configuration change nothing. No
   operation asks a Gateway to go unless the shoot is being deleted, and then it asks
   all of them. Every operation fails only for a reason: its last call was not answered
   and is none whose failure is passed over, the configuration is rejected, Gateways are
   in sight, or the ManagedResource is still there after its deletion and the wait were
   answered. A successful delete leaves nothing of what the ManagedResource had applied,
   unless others touch it. While the resource manager syncs, a delete of a shoot without
   Gateways succeeds and leaves exactly the rest, and what was applied is gone **if and
   only if** the keep flag was not set or there is nothing to keep. The ManagedResource
   never stands without its certificates, and is deleted only after the controller.
8. Migration and forced deletion, cut off anywhere, touch neither Gateways nor
   policies and lose no delivered object **if and only if** it was not up for
   removal when they began. It is, for instance, in a deletion in flight without
   the keep flag, which a stuck delete leaves; from the flag write on, nothing more
   is lost there either. Migrating, however often it is cut off, and then restoring
   is the identity on settled objects, and succeeds while the resource manager syncs.
9. A complete reconcile reaches the state the configuration asks for **if and only
   if** the ManagedResource was not in deletion at the start, or a sync completed
   that deletion before the write. Otherwise the write resets the keep flag of that
   deletion, and the next sync removes the ManagedResource and all it had applied.
   Both happen: undisturbed, every reconcile with an accepted configuration is
   complete, and it converges if and only if no deletion is in flight; a migration cut
   off after its delete call and a restore with every call answered lose everything.
10. The generated guard text, for every workload and path of selectors, means "this field is
    absent", and the policy admits accordingly: outside kube-system nothing that sets one
    of the six fields on either workload, and of the well-typed objects all others.
11. The webhook's verdict is independent of the order of the extension entries
    **if and only if** the order has no say, which is so where types are distinct. When
    it denies and what it warns of is stated exactly.

## Assumptions about the surroundings

- The map-function handler of controller-runtime maps the old and the new object
  of an update event. An edit that keeps managed-by and sets an unknown,
  non-empty hop value is therefore still seen through the old object.
- Deleting or scaling down the controller's Deployment stops its steps at once.
- The resource manager applies the bundle, removes what left it, and on deletion
  removes what it applied unless `keepObjects` is set. Writing the
  ManagedResource sets `keepObjects` to false in any case.
- Resource versions name one version of one object each (`GenuineServer`).
- Where a result needs it, and only there: nobody but the controller writes
  policies that carry the managed-by value and the hop label key (`Calm`); nobody
  makes new orphans (`Clean`); nobody but the resource manager touches the object
  in question (`LeftToSync`).
- Prune and sweep delete by name, without preconditions: what replaces a listed
  object before its deletion goes too.
- Image lookup, kubeconfig injection, secrets generation and strict decoding are
  calls that succeed with a value or fail.

## Where code and documentation differ

- `docs/usage/troubleshooting.md` says a providerConfig that fails to decode
  falls back to defaults; the code returns an error and writes nothing, and so
  does the model.
- `docs/usage/troubleshooting.md` says the managed policies only open ingress to
  the proxies; the code also writes the egress policy.
- The webhook skips an empty providerConfig, the actuator decodes it; the model
  keeps both and states exactly when they disagree.

## Model

| member | source | states |
|---|---|---|
| Watches.DesiredIsNoticed | pkg/envoygateway/netpol.go:30-36 | The labels of both written policies pass the self-heal watch and map to their namespace |
| Watches.WhatWakes | pkg/netpolcontroller/watches.go:34-79 | A policy event wakes its namespace exactly if the object, after an update the new one, has the managed-by value and a hop, and it or the old one a known hop, labels written out |
| Watches.WhichGatewaysWake | pkg/netpolcontroller/watches.go:46-57 | A Gateway event wakes its namespace exactly if the Gateway, after an update the new one, is of the extension's class |
| DataPlane.DesiredMeaning | pkg/envoygateway/netpol.go:30-136 | Names and labels of the two policies, written out |
| ControllerSafety.FlipWakes | pkg/netpolcontroller/watches.go:46-57 | A Gateway event that changes whether a namespace is wanted enqueues it, unless it re-classes the last managed Gateway away |
| ControllerSafety.WantedLagSignals | pkg/netpolcontroller/watches.go:27-57 | If cached and real Gateways disagree on a namespace, an undelivered event will enqueue it |
| ControllerSafety.PolicyLagSignals | pkg/netpolcontroller/watches.go:34-79 | If a noticed policy in the cache differs from the real one, an undelivered event will enqueue its namespace |
| ControllerSafety.BreakWakes | pkg/netpolcontroller/watches.go:34-79 | A policy change that breaks agreement enqueues the namespace, unless the edit drops the managed labels |
| ControllerSafety.ListKeeps | pkg/netpolcontroller/reconciler.go:48-60 | A decision taken from stale Gateways is right for the server or still has a signal in flight |
| ControllerSafety.ReadKeeps | pkg/netpolcontroller/reconciler.go:95-108 | Skipping a policy the cache shows in sync is right for the server or still has a signal in flight |
| ControllerSafety.WriteKeeps | pkg/netpolcontroller/reconciler.go:97-108 | A successful write leaves its own event in flight and keeps every namespace accounted for |
| ControllerSafety.DeleteKeeps | pkg/netpolcontroller/reconciler.go:112-121 | A prune call removes its target and keeps every namespace accounted for |
| ControllerSafety.RestartAccounts | pkg/netpolcontroller/watches.go:59-65 | From any server state, the replay of a restart accounts for every namespace |
| ControllerSafety.RunKeepsHealthy | pkg/netpolcontroller/reconciler.go:127-145 | The whole invariant holds after every visible run |
| ControllerSafety.DriftIsSignalled | pkg/netpolcontroller/reconciler.go:44-121 | After every visible run, a namespace in disagreement is queued, in process, or has an undelivered event that enqueues it |
| ControllerSafety.QuiescenceAgrees | pkg/netpolcontroller/reconciler.go:41-75 | When nothing is in flight, both policies are exactly the desired ones where a managed Gateway exists, and no managed policy of a known hop sits at their names elsewhere |
| ControllerSafety.NoManagedPolicyLeft | pkg/netpolcontroller/watches.go:66-79 | If nobody stores an unknown hop at the two names, no managed policy at all sits there elsewhere |
| ControllerSafety.RestartHeals | pkg/netpolcontroller/watches.go:59-65 | From any state whatsoever, a restart and any visible run end, at rest, in agreement everywhere |
| ControllerSafety.AgreesMeaning | pkg/netpolcontroller/reconciler.go:41-75 | What agreement of a namespace says, with names and labels written out |
| ControllerSafety.SilentMeaning | pkg/netpolcontroller/watches.go:46-79 | Which edits the watches cannot see, with names and labels written out |
| ControllerTermination.StepKeepsSane | pkg/netpolcontroller/reconciler.go:95-108 | Every step keeps all known objects genuine versions, and updates are only attempted on policies that differ |
| ControllerTermination.WriteLowersRank | pkg/netpolcontroller/watches.go:64-65 | A write on a current decision repairs a policy that differed |
| ControllerTermination.StepLowersRank | pkg/netpolcontroller/watches.go:64-66 | Every internal step that does not fail lowers the rank |
| ControllerTermination.NoSelfTriggeredLoop | pkg/netpolcontroller/watches.go:64-66 | No endless schedule consists of the controller's own non-failing steps from some point on |
| ControllerTermination.NoEndlessRefusals | pkg/netpolcontroller/reconciler.go:97-108 | Refused writes included: no endless schedule that keeps delivering policy events goes without external changes, restarts and injected failures |
| ControllerTermination.ComesToRest | pkg/netpolcontroller/reconciler.go:44-75 | From every state the controller can come to rest by its own steps |
| ControllerTermination.RestartConverges | pkg/netpolcontroller/watches.go:59-65 | Whatever the server holds, a restarted controller has a finite run of its own that brings every namespace into agreement |
| ControllerTermination.CallKeepsAnnotations | pkg/netpolcontroller/reconciler.go:95-108 | A call keeps the annotations of every policy it does not delete, however it ends |
| ControllerTermination.RunKeepsAnnotations | pkg/netpolcontroller/reconciler.go:95-108 | Over every run of the controller and every restart, a policy that stays stored keeps its annotations |
| ControllerHistory.ChangesAreJustified | pkg/netpolcontroller/reconciler.go:44-121 | A reconcile call touches one of the two named policies of its namespace; a removal has a moment since start without managed Gateway there, a write one with |
| ControllerHistory.CallChanges | pkg/netpolcontroller/reconciler.go:93-121 | A call removes only the policy it is at, and whatever it writes is the desired policy |
| ControllerNecessity.RepairedIffVisible | pkg/netpolcontroller/watches.go:46-79 | An edit of a system at rest is repaired in every schedule if and only if it is not one of the two silent kinds |
| ControllerNecessity.ReclassLeavesPolicies | pkg/netpolcontroller/watches.go:51-56 | Re-classing the last managed Gateway away comes to rest with the policies left behind |
| ControllerNecessity.UnlabellingStays | pkg/netpolcontroller/watches.go:66-79 | Taking the managed labels off a policy comes to rest with the edit in place |
| ControllerNecessity.UnlabellingWhileUnwanted | pkg/netpolcontroller/watches.go:66-79 | Unlabelling is harmful even while no managed Gateway exists: a concrete schedule through a stale cache ends in lasting disagreement |
| Reconcilers.Reconciler.NamespaceHasManagedGateway | pkg/netpolcontroller/reconciler.go:79-91 | The loop reports exactly whether the cached Gateways of the namespace include a managed one |
| Reconcilers.Reconciler.Apply | pkg/netpolcontroller/reconciler.go:95-108 | Reading, comparing, then writing the given labels and spec at the given name, on the annotations read, is the step system's read and write; a failure or refusal requeues |
| Reconcilers.Reconciler.PruneNamespace | pkg/netpolcontroller/reconciler.go:112-121 | Deleting the two names one by one is the step system's two deletions |
| Reconcilers.Reconciler.Reconcile | pkg/netpolcontroller/reconciler.go:44-75 | Every reconcile is a run of the step system that ends idle, requeued on failure; in a visible run its namespace then agrees or is signalled |
| Connectivity.IngressPolicyAllows | pkg/envoygateway/netpol.go:58-77 | The ingress policy grants exactly TCP 10080, 10443 and 19003 to the namespace's proxy pods |
| Connectivity.EgressPolicyAllows | pkg/envoygateway/netpol.go:86-136 | The egress policy grants exactly DNS to pods anywhere and xDS to the control-plane pods |
| Connectivity.ControlPlanePolicyAllows | pkg/envoygateway/deployer.go:964-1000 | The control-plane policy grants exactly TCP 18000 and 19001 to the control-plane pods from proxy pods anywhere |
| Connectivity.EndpointsMeaning | pkg/envoygateway/netpol.go:86-136 | Proxy pods, control-plane pods and xDS peers, labels written out |
| Connectivity.ManagedEffect | pkg/envoygateway/netpol.go:58-136 | For every other policy set, the exact traffic after adding both policies |
| Connectivity.HarmlessIffIsolated | pkg/envoygateway/netpol.go:51-90 | Adding them takes no connection away from a proxy if and only if another policy already isolates it |
| Connectivity.AddsExactly | pkg/envoygateway/netpol.go:58-136 | Where proxies are isolated already, every connection between any two endpoints is decided as before plus exactly the managed grants |
| Connectivity.XdsReachable | pkg/envoygateway/deployer.go:964-1000 | Egress rule, control-plane ingress rule and pod labels fit: proxies reach the control plane on TCP 18000 whatever else exists |
| EndToEnd.ProxiesBoot | pkg/envoygateway/netpol.go:79-85 | After every visible run at rest, proxies of every namespace with a managed Gateway reach every control-plane pod |
| DeliveredTraffic.ReconciledReachesTraffic | pkg/actuator/actuator.go:279-304 | From a delivered bundle with the controller's Deployment in place, whatever the shoot holds, steps of resource manager and controller alone connect the proxies of every managed Gateway |
| DeliveredTraffic.BundleHasPolicy | pkg/envoygateway/deployer.go:248-266 | Every configuration's bundle holds the control-plane policy, as the traffic result asks |
| DeliveredTraffic.HistoryKeepsGenuine | pkg/netpolcontroller/reconciler.go:95-108 | In every history of the actuator, whatever others do, stored policies stay the versions their resource versions name |
| DeliveredTraffic.ReconcileToTraffic | pkg/actuator/actuator.go:196-304 | A reconcile that switches the controller on, anybody at work meanwhile: unless it fails for a stated reason or a deletion is in flight, it ends where steps of resource manager and controller alone connect the proxies of every managed Gateway |
| EndToEnd.GatewayComesAndGoes | pkg/netpolcontroller/reconciler.go:41-75 | The first managed Gateway adds exactly two policies to the cluster; removing it restores all policies |
| Histories.DeletionHasACause | pkg/envoygateway/deployer.go:207-212 | In every history, a ManagedResource comes to be in deletion only through a delete call of the actuator that took effect |
| Histories.DeletionPersists | pkg/envoygateway/deployer.go:183-224 | Between such calls a deletion is in flight exactly if it was and no sync came |
| Histories.ReadsChangeNothing | pkg/actuator/actuator.go:459-478 | A stretch of reads leaves the world where the steps of others alone lead |
| Cleanups.SweepSpares | pkg/actuator/orphan_sweep.go:68-128 | At any point of failure, an object that is no orphan survives with the same labels, unless others change it |
| Cleanups.PruneSpares | pkg/actuator/dataplane_netpol.go:66-78 | At any point of failure, a policy that is not selected survives with the same value, unless others change it |
| Cleanups.DeliveredSurvives | pkg/actuator/orphan_sweep.go:129-139 | A delivered object is never deleted by the sweep |
| Cleanups.ControlPlanePolicySurvives | pkg/envoygateway/netpol.go:38-49 | The control-plane policy is never deleted by the prune |
| Cleanups.NothingLeftToSweep | pkg/actuator/orphan_sweep.go:28-31 | Where there are no orphans and nobody makes new ones, a sweep deletes nothing |
| Cleanups.NoOrphanStays | pkg/actuator/orphan_sweep.go:68-128 | What a sweep saw gone stays gone, if nobody makes new orphans |
| Cleanups.UnselectedStays | pkg/actuator/actuator.go:305-314 | What a prune saw gone stays gone, if no controller runs and nobody else writes such policies |
| Cleanups.LeftPolicyWasPut | pkg/actuator/dataplane_netpol.go:66-78 | What a complete prune leaves was put there by a step of others during it |
| Cleanups.WhoPutsPolicy | pkg/actuator/actuator.go:396-402 | That step is a user storing it or the running controller writing it |
| Cleanups.LeftOrphanWasPut | pkg/actuator/orphan_sweep.go:68-128 | What a complete sweep leaves was put there by a step of others during it |
| Cleanups.WhoPutsOrphan | pkg/actuator/orphan_sweep.go:129-139 | That step stored it; a sync never does |
| Cleanups.RestIsForeign | pkg/actuator/orphan_sweep.go:129-139 | What the actuator's deletions spare includes every object and policy without the two labels, written out |
| Cleanups.NoOrphansMeaning | pkg/actuator/orphan_sweep.go:28-31 | No orphans: in kube-system no object of the six kinds has both labels |
| Cleanups.PrunedMeaning | pkg/actuator/dataplane_netpol.go:66-78 | Pruned: no controller, and no policy has both labels |
| Retention.RetirementKeeps | pkg/envoygateway/deployer.go:197-205 | A retirement cut off anywhere loses no object that was not up for removal |
| Retention.AtRiskCanBeLost | pkg/envoygateway/deployer.go:197-205 | The failing run: an object of a deletion without keep flag goes with a sync before the first call |
| Retention.RetirementKeepsIff | pkg/envoygateway/deployer.go:197-205 | An object survives every retirement under every interleaving if and only if it is not up for removal at the start |
| Retention.AfterTheFlag | pkg/envoygateway/deployer.go:199-205 | Also from a stuck deletion, nothing is lost once the flag write took effect |
| Retention.RetirementSettled | pkg/actuator/actuator.go:550-571 | A retirement cut off anywhere changes no settled object |
| Retention.DeliversIff | pkg/envoygateway/deployer.go:183-185 | A written bundle takes hold if and only if no deletion was in flight at the start or a sync ended it before the write |
| Retention.DeliversAlwaysIff | pkg/envoygateway/deployer.go:183-185 | In every history with one write of it the bundle takes hold if and only if no deletion is in flight at the start |
| Retention.RevivedDeletionLoses | pkg/envoygateway/deployer.go:183-185 | Otherwise the next sync removes the ManagedResource and everything applied |
| Retention.DeliverySettled | pkg/actuator/actuator.go:279-297 | A delivery cut off anywhere changes no settled object that its bundle continues |
| Removals.RemovedWithResource | pkg/envoygateway/deployer.go:207-224 | Whatever interleaves, once the ManagedResource is gone after calls without delivery and keep flag, so is everything it applied that only the resource manager touched |
| Removals.LeavesWhatRemains | pkg/envoygateway/deployer.go:207-224 | With the resource manager alone at work, exactly the objects that it had not applied remain |
| Removals.NothingRemainsIff | pkg/envoygateway/deployer.go:197-224 | Of these nothing was applied if and only if the keep flag was not set or there is nothing to keep |
| GatewayGuards.GuardHolds | pkg/actuator/actuator.go:392-424 | Every deletion of the ManagedResource comes after a permitting finding of the same operation |
| Worlds.BundleIsNeverSwept | pkg/envoygateway/deployer.go:231-337 | For every configuration, no delivered object matches the orphan sweep |
| Worlds.SweepFindsOrphans | pkg/actuator/orphan_sweep.go:68-139 | The kinds, the list options and the filter of the sweep find exactly the orphans |
| Worlds.OrphanMeaning | pkg/actuator/orphan_sweep.go:68-139 | An orphan: of one of the six kinds, in kube-system, with the managed-by value and the owning-gateway label |
| Worlds.CrdsDelivered | pkg/envoygateway/deployer.go:231-337 | The CRDs of the channel are in the bundle exactly if they are managed |
| Worlds.GuardDelivered | pkg/envoygateway/deployer.go:231-337 | The admission guard is in the bundle exactly where its API is served |
| Worlds.NetpolRbacDelivered | pkg/envoygateway/deployer.go:231-337 | The RBAC of the policy controller is in the bundle exactly if it is switched on |
| Environment.PruneFindsPolicies | pkg/actuator/dataplane_netpol.go:61-78 | The selector of the prune finds exactly the data-plane policies of the extension |
| Environment.SelectionMeaning | pkg/envoygateway/netpol.go:38-49 | These have the managed-by value gardener and the hop label |
| Actuators.Actuator.Do | pkg/actuator/actuator.go:194-571 | An API call: the history grows by one step, and the world changes by it and in no other way; no access secret goes before its Deployment, no certificates before their ManagedResource |
| Actuators.Actuator.Teardown | pkg/actuator/netpol_deployer.go:98-112 | Deployment before secret: at every point of failure no Deployment without its secret; success removes both |
| Actuators.Actuator.Ensure | pkg/actuator/netpol_deployer.go:59-96 | Secret before Deployment; success leaves the secret and the desired Deployment with one replica |
| Actuators.Actuator.ScaleDown | pkg/actuator/netpol_deployer.go:114-130 | Only the replicas change, to none; success means the controller cannot run; Deployment and secret stay |
| Actuators.Actuator.PrunePolicies | pkg/actuator/dataplane_netpol.go:66-78 | Deletes only what its listing selected and spares all other policies and objects; fails only on an unanswered call; after success a selected policy is one others put, and without a controller every policy left lacks the managed-by value or the hop label |
| Actuators.Actuator.SweepOrphans | pkg/actuator/orphan_sweep.go:68-128 | Deletes only what its listings found to be orphans and spares all other objects and policies; fails only on an unanswered call; after success an orphan is one others put, and if nobody makes any, every object left is outside kube-system, of another kind or without both labels |
| Actuators.Actuator.DeleteManagedResource | pkg/envoygateway/deployer.go:207-224 | Calls the deletion and then the wait, nothing else; success means it is gone |
| Actuators.Actuator.DeleteKeepingObjects | pkg/envoygateway/deployer.go:199-205 | Sets the keep flag before the deletion, which comes only if that was answered |
| Actuators.Actuator.DeleteGateways | pkg/actuator/gateway_guard.go:144-168 | Asks each Gateway that its listing found staying to go, and no other; success has seen every Gateway gone or on its way out |
| Actuators.Actuator.WaitUntilGatewaysDeleted | pkg/actuator/gateway_guard.go:170-197 | For every poll sequence: drained iff a poll met no Gateways, still deleting iff none did and the last could reach the API server |
| Actuators.Actuator.DrainUserGateways | pkg/actuator/actuator.go:483-518 | Asks every Gateway to go unless a call fails; goes ahead only after a wait that did not end with Gateways in sight, and stops only with them in sight; other failures are tolerated |
| Actuators.Actuator.CheckNoUserGateways | pkg/actuator/actuator.go:459-478 | On a live shoot one read and nothing else, and it passes if and only if that was answered and met no Gateways; on a deleting one it passes only after a permitting poll |
| Actuators.Actuator.DeployBundle | pkg/actuator/actuator.go:281-297 | One write of the bundle, which meets the certificates in place; a failed sweep does not fail it, only an unanswered call before the sweep does; the controller's Deployment and secret stay |
| Actuators.Actuator.SwitchNetpol | pkg/actuator/actuator.go:299-314 | On: secret and Deployment as desired. Off: no controller, and no policy of its kind, whatever steps interleave |
| Actuators.Actuator.Reconcile | pkg/actuator/actuator.go:196-319 | Touches only what its request calls for, Gateways only while the shoot is being deleted; a rejected configuration changes nothing; fails only for a stated reason, never because of the sweep; what fails before the bundle is written touches only certificates and bundle; a complete run has written the certificates before the bundle and reaches the state asked for if and only if no deletion was in flight or a sync ended it before the write, and otherwise loses what was applied; hibernation stops the controller and changes nothing else |
| Actuators.Actuator.Delete | pkg/actuator/actuator.go:378-428 | Asks Gateways to go only, and all of them, while the shoot is being deleted; the ManagedResource comes to be in deletion only after a permitting finding of the same call, and only once the controller is torn down; a refusal, an unreachable Cluster or an unanswered listing changes nothing; fails only for a stated reason, a ManagedResource still there only after its deletion and the wait were answered; success leaves no owned object, nothing the ManagedResource had applied unless others touch it, and, on a live shoot, no managed policy |
| Actuators.Actuator.ForceDelete | pkg/actuator/actuator.go:521-538 | Cut off anywhere, touches neither Gateways, policies nor objects, flags before it deletes, and loses no object that was not up for removal; fails only on an unanswered call or a ManagedResource still there |
| Actuators.Actuator.Migrate | pkg/actuator/actuator.go:553-571 | The same, and success removes the seed side |
| Actuators.Actuator.Restore | pkg/actuator/actuator.go:541-548 | Everything that is stated of a reconcile |
| Actuators.Actuator.RetryMigrate | pkg/actuator/actuator.go:553-571 | Any number of migrations, each cut off anywhere, lose and change nothing more; none succeeds only if the last call was not answered or the ManagedResource outlasts an answered wait |
| Actuators.Actuator.MigrateAndRestore | pkg/actuator/actuator.go:540-571 | Migrations until one succeeds, then a restore, deliver the bundle and are the identity on every settled object left to the resource manager; short of that, the last call was not answered or the ManagedResource outlasts an answered wait |
| Actuators.MigrationSucceeds | pkg/actuator/actuator.go:540-571 | That happens in every world with the ManagedResource of the configuration: while the resource manager syncs, migration and restore succeed and change no settled object |
| Actuators.DeleteSucceeds | pkg/actuator/actuator.go:378-428 | While the resource manager syncs, a delete of any shoot without Gateways succeeds and leaves exactly what was not applied; nothing applied is left if and only if the keep flag was not set or there is nothing to keep |
| Actuators.Actuator.RestoreAfterCutOff | pkg/actuator/actuator.go:540-571 | A migration cut off after its delete call and a complete restore before the next sync lose everything applied |
| Actuators.RestoreLoses | pkg/actuator/actuator.go:540-571 | That happens, for every world with a ManagedResource: one unacknowledged call, all others answered, nobody else moving |
| Actuators.UndisturbedReconcile | pkg/actuator/actuator.go:196-319 | Undisturbed, a reconcile with an accepted configuration succeeds in every world, and converges if and only if no deletion is in flight |
| Actuators.Actuator.RetryReconcile | pkg/actuator/actuator.go:196-319 | After any attempts cut off anywhere, the next is complete unless its last call was not answered or its configuration is rejected; then certificates and controller are as asked for, and the bundle under the same exact condition as for a single one |
| Actuators.Actuator.HibernateAndWake | pkg/actuator/actuator.go:216-228 | Sleeps and wakes in any order keep the secret; the last one is complete unless a call was unanswered, and then a wake-up restores the Deployment with one replica and a sleep stops the controller |
| Actuators.Actuator.Perform | pkg/actuator/actuator.go:194-571 | For every sequence of operations: no Deployment without secret; each operation touches only its areas, so Gateways are asked to go only by one on a shoot in deletion; of policies and other objects only selected policies and orphans are deleted, nothing without their two labels; pruned policies stay away until an operation switches the feature on |
| FeatureSwitch.ReversedOrderLeavesPolicies | pkg/actuator/actuator.go:396-414 | Pruning before the teardown: the controller has steps that restore the policies, and they stay until a user edits them |
| FeatureSwitch.EnabledConverges | pkg/actuator/actuator.go:299-304 | With its Deployment in place the controller has a run, from any shoot, that ends in agreement everywhere |
| Cel.OrAllResult | pkg/envoygateway/deployer.go:1218-1233 | A CEL disjunction is true if a term is, false if all are, else an error |
| Guard.FieldAbsentExpression | pkg/envoygateway/deployer.go:1222-1233 | The loop writes the null test and one presence test per path prefix, joined in order |
| Guard.GuardParses | pkg/envoygateway/deployer.go:1218-1233 | For every workload and dotted path of CEL selectors the text parses to that disjunction |
| Guard.GuardMeaning | pkg/envoygateway/deployer.go:1218-1233 | True iff the workload is null or the path absent, false iff present, error only through something that is no object |
| GuardPolicy.EnvoyProxyGuard | pkg/envoygateway/deployer.go:1157-1171 | Twelve validations that, outside kube-system, refuse every object with one of the six fields on either workload, paths written out, and admit all other well-typed ones |
| GuardPolicy.VariablesValue | pkg/envoygateway/deployer.go:1187-1191 | The workload variables hold the sections of the object, or null where it has none |
| GuardPolicy.VariablesAreSections | pkg/envoygateway/deployer.go:1187-1191 | Each variable holds the section of its workload, paths written out |
| GuardPolicy.ValidationMeaning | pkg/envoygateway/deployer.go:1152-1171 | On the whole object: a validation holds only without the field, and exactly then on well-typed paths |
| GuardPolicy.GuardIsExact | pkg/envoygateway/deployer.go:1144-1216 | For every list of guarded fields: outside kube-system no object with one of them on either workload is admitted, for trees of any size; all other well-typed objects are |
| GuardPolicy.SixFieldsAreGuarded | pkg/envoygateway/deployer.go:1157-1164 | The same of every list of validations with the texts of the shipped fields |
| Crds.SplitCRDs | pkg/envoygateway/deployer.go:380-410 | Exactly the last kept document of every name, for every stream; fails only on a kept document that cannot be encoded |
| Crds.OwnGroupOnly | pkg/envoygateway/deployer.go:380-410 | Manifests of the envoy-gateway asset are exactly its named CRDs of its own API group |
| Crds.AllGroups | pkg/envoygateway/deployer.go:380-410 | Without a group filter every named CRD has its manifest |
| Crds.AddCRDs | pkg/envoygateway/deployer.go:360-372 | The envoy-gateway asset, restricted to its own API group, and that of the chosen channel are there in full, on the experimental channel also the standard one apart from displaced names; nothing else is added or replaced |
| Crds.AssetsNeverCollide | pkg/envoygateway/deployer.go:361-371 | Manifest names of the Gateway API assets and the envoy-gateway asset never coincide |
| Crds.ChannelsCollideIff | pkg/envoygateway/deployer.go:361-368 | On the experimental channel two names coincide if and only if the standard name spells out the prefix |
| ProviderConfigs.ApplyLogLevel | pkg/actuator/actuator.go:573-583 | Accepts the empty and the four valid levels, and overwrites only with a valid one |
| ProviderConfigs.ReadConfig | pkg/actuator/actuator.go:230-277 | Accepts exactly the decodable configurations with valid channel and levels, and fills every field over the defaults |
| ProviderConfigs.DefaultsMeaning | pkg/actuator/actuator.go:230-277 | The defaults, written out |
| ProviderConfigs.SettingsArrive | pkg/actuator/actuator.go:230-277 | Every setting arrives where it belongs: replicas and level at their own plane, channel, flags, proxy defaults, version |
| ProviderConfigs.PlanesAreApart | pkg/actuator/actuator.go:230-277 | Configurations that differ in one plane give results that differ in its two fields at most |
| ProviderConfigs.AcceptableMeaning | pkg/actuator/actuator.go:230-277 | Acceptable channels and levels, written out |
| Admission.ValidateShoot | pkg/admission/validator/shoot.go:114-197 | The loop with its early exit computes the verdict and the warnings |
| Admission.DeniedIff | pkg/admission/validator/shoot.go:114-197 | Denied exactly if the extension is enabled, no entry disables it, and the purpose is not evaluation or the configuration that counts is not empty and fails to decode or to be acceptable |
| Admission.LastConfigMeaning | pkg/admission/validator/shoot.go:121-137 | The configuration that counts is that of the last enabled entry with one |
| Admission.WarningsAreExact | pkg/admission/validator/shoot.go:156-196 | Exactly the warnings on a second ingress extension and on the experimental channel, in this order |
| Admission.OrderDoesNotMatterIff | pkg/admission/validator/shoot.go:121-137 | Every order of the entries has the same verdict if and only if an entry is disabled, or none is enabled, or the purpose decides, or all carried configurations contribute the same |
| Admission.DistinctTypesHaveNoOrder | pkg/admission/validator/shoot.go:121-137 | Where every type occurs once, the order does not matter |
| Admission.WebhookAgreesWithActuator | pkg/admission/validator/shoot.go:167-194 | On an enabled evaluation shoot webhook and actuator agree on every configuration but the empty one, which the webhook admits and the actuator accepts exactly if the empty text decodes to acceptable values |
| Admission.EmptyConfigIsAdmittedAndRejected | pkg/admission/validator/shoot.go:167-171 | The failing input, for every decoder that does not take the empty text |

## Left out

- A broken watch that relists may merge events (a policy created and deleted in the gap is never seen); only restarts replay the server here.
- Periodic cache resyncs and generic events, which only add signals.
- More than one concurrent reconcile; the controller runs with the default of one worker.
- An API server without the Gateway kind is one without Gateways, so the absent-kind error is the empty list.
- GuardPolicy.VariablesValue: the three fixed variable expressions are written down as syntax trees, because only the generated validations are built from strings.
- RBAC rule tables, Deployment pod details, the rendered EnvoyProxy YAML, Helm charts: easy members without behaviour.
- Secrets generation, what certificates contain and their rotation, the image vector, brotli compression, kubeconfig injection: code of other projects, reduced to calls that may fail.
- CLI, manager construction, heartbeat, metrics, log lines and the wording of errors.
