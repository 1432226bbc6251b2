# KubeCell, verified

A Dafny model of the core of the KubeCell operator: the VirtualCluster lifecycle, the Cell inventory and the feasibility
decision built on it, the admission of reflected Pods on a Host, the mirroring of child Ingresses, and the quota accounting.
`dafny verify dfyconfig.toml` checks everything.

How the parts are modelled:

- **Lifecycle** (`Lifecycle*.dfy`, `ChildObserver.dfy`, `Deletion.dfy`). One VirtualCluster name, its Cell, its class, all
  ManifestWorks and Secrets, and one worker. Every API call of a round, read or write, is one step; a step may fail, a round may
  crash between any two steps, and users, the OCM agent, the Cell reconciler, the webhooks and third parties act in between. A run
  is a sequence of actions from an initial world; a disabled action changes nothing. The protocol is proved for every choice of
  the pure functions a round calls (`Config`) that is `Usable`, and the controller's own functions are shown to be usable.
  What a theorem asks of the environment is a predicate on single actions:
  `Steady` (the Cell stays, and is not moved to another managed cluster while a deleted cluster has no saved snapshot),
  `CellStays` (no cluster is created between the Cell reconciler's list of clusters and its removal of the Cell's finalizer),
  `Calm` (during a round nobody else places a Work or Secret under a derived name of the cluster that is worked on),
  `ClassKept` (the Cell stays, a referenced class is not deleted and its quota keeps its printed format),
  `AllOrError` (a Ready cluster is never told that only part of it is up; the code's own observer is proved to meet this).
  Each comes with an exact condition: `RemovalLeavesOthersHomes` and `FoundationLastIff`, `DriftIff`, `ForeignUntouchedIff` and
  `ReadyKeptIff`. Runs of the controller itself from the empty world show that the first three are needed (`LifecycleWitness`,
  `LifecycleTwoHomes`). Progress is stated over sequences of answers to consecutive steps: which phase a round saves
  (`LifecycleProgress`), and that a deletion ends (`LifecycleDeletion`); `LifecycleReady` holds runs from the empty world to a
  Ready cluster and to one that is gone.
- **Inventory and feasibility** (`Inventory`, `Projection`, `Storage`, `Quantities`, `Plan`, `PlanMeaning`, `Resolution`, `CellController`,
  `Feasibility`, `AcceptedCell`). Loops over lists and maps are loops, map iteration is an arbitrary choice of the next key, and each is proved
  against a declarative sum, count or predicate. The Cell is a class whose status its reconciler updates in place.
- **Host admission** (`Affinity`, `HostAdmission`, `AdmissionStability`). The Pod is a class that is rewritten in place; node
  affinity has its Kubernetes meaning, an OR of ANDs in which an empty term matches no node.
- **Ingress mirror** (`MirrorAssembly`, `IngressMirror`, `MirrorClosure`, `MirrorSources`, `MirrorRules`, `Decimal`, `Names`).
- **Quota** (`Quota`). Quantities may share a heap `Dec`, and subtraction works in place on it.

Where the code is not what its comments say, the model follows the code:

- The comment on the mirror says that host object names carry the child namespace; Service names do not
  (`MirrorSources.NamespacesShareServices`), their parts are joined by dashes that names may contain
  (`MirrorSources.DashesShareServices`), and an Ingress with two backends emits the second Service with the Endpoints of the
  first (`MirrorSources.TwoBackendsMixEndpoints`). In each case a rule is served by the wrong Endpoints;
  `MirrorClosure.EndpointsAgreeIff` says exactly when that happens.
- `addProfileAffinity` narrows a Pod to its profile, but an empty selector term or an empty term list, which admit nothing,
  become "every node of the profile" (`Affinity.MeaningAfter`, `Affinity.EmptyTermWidens`).
- The webhooks protect a class that is in use from edits, not from being deleted and created again, which ends in ResolvedDrift
  (`LifecycleSnapshot.RecreatedClassFails`).

## Model

| member | source | states |
|---|---|---|
| `LifecycleOrphans.NoOrphans` | internal/controller/virtualcluster_controller.go:86-573 | On every steady run, crashes included, every Work and Secret labelled with a UID this name has had belongs to the existing cluster, which still holds its finalizer; so nothing is left when the finalizer goes. |
| `LifecycleOrphans.NoOrphanSecrets` | internal/controller/virtualcluster_controller.go:522-524 | For Secrets this holds on every run of every environment. |
| `LifecycleOrphans.FoundationGoesLast` | internal/controller/virtualcluster_controller.go:551-566 | On every run a step that removes a Foundation Work or asks for its deletion finds no Instance Work of the cluster in that managed cluster, and on a steady run none anywhere. (That deletions are asked for at all, and end, is `LifecycleDeletion`.) |
| `LifecycleOrphans.FoundationLastIff` | internal/controller/virtualcluster_controller.go:537-566 | Exactly: when a Foundation Work is about to be deleted, no Instance Work of the cluster is left anywhere if and only if those left are all in the managed cluster that was looked in. |
| `LifecycleDeletion.InstanceIsDeleted` | internal/controller/virtualcluster_controller.go:551-558 | Every deletion round without a failing call that finds the cluster's Instance Work contains the step that removes it or asks for its deletion. |
| `LifecycleDeletion.FoundationIsDeleted` | internal/controller/virtualcluster_controller.go:559-566 | One that finds only the Foundation Work contains that step for the Foundation Work. |
| `LifecycleDeletion.DeletionEnds` | internal/controller/virtualcluster_controller.go:517-573 | From any point between two rounds where the home is known and no foreign object sits under a derived name, at most eight steps per remaining Work and eight more, with calls that succeed and Works that do not linger, end in exactly the world without the cluster, its two Works and its Secret. |
| `LifecycleDeletion.DeletionLeavesNothing` | internal/controller/virtualcluster_controller.go:517-573 | From any such sound world 24 steps remove the cluster, and no Work at its home and no Secret with its UID is left. |
| `LifecycleDeletion.DeletionCompletes` | internal/controller/virtualcluster_controller.go:517-573 | On every steady run, at every such point: the deletion ends with no Work and no Secret of the UID left anywhere. |
| `LifecycleDeletion.SoundIsDeletable` | internal/controller/virtualcluster_controller.go:526-550 | The condition holds in every sound world with a saved snapshot or a Cell, where what sits under the derived names is absent or the cluster's own. |
| `LifecycleDeletion.BlockedRoundWaits` | internal/controller/virtualcluster_controller.go:522-550 | The condition is exact: otherwise a round touches no Work and the cluster waits with its finalizer, in phase Deleting unless the Secret is foreign. |
| `LifecycleReady.NothingIsLeft` | internal/controller/virtualcluster_controller.go:517-573 | A run of the controller from the empty world on which a cluster with both Works is deleted ends without cluster, Works and Secrets. |
| `LifecycleTwoHomes.FoundationMayGoFirst` | internal/controller/virtualcluster_controller.go:104-117 | Without `Steady`: a run of the controller from the empty world, on which a round reads the Cell only after the cluster was deleted and the Cell moved, deletes a Foundation Work while an Instance Work exists in the other managed cluster. |
| `LifecycleOrphans.RemovalLeavesOthersHomes` | internal/controller/virtualcluster_controller.go:527-573 | In any sound state, removing the finalizer leaves no Work behind if and only if every Work of the cluster is in the managed cluster that was looked in. |
| `LifecycleOrphans.MovedCellLeavesOrphan` | internal/admission/kubecell_webhooks.go:33-47 | Without the assumption: from any round about to write its first Foundation Work there is a run that ends with the cluster gone and the Work left. |
| `LifecycleWitness.OrphansAreReachable` | internal/admission/kubecell_webhooks.go:33-47 | The same from scratch, for the controller's own functions and every name: a run from the empty world, through a Cell that becomes Ready and an accepted round, to the orphan. |
| `LifecycleWitness.CellsAreDroppedInUse` | internal/controller/cell_controller.go:502-524 | Without `CellStays`: a run of the controller from the empty world ends with a live cluster that has a snapshot and no Cell. |
| `AcceptedCell.ReadyIsReachable` | internal/controller/cell_controller.go:67-208 | The first Cell round on one node with capacity, a TopoLVM class and no taken NodePort can store phase Ready with its inventory. |
| `AcceptedCell.PlanIsAccepted` | internal/controller/plan_evaluator.go:28-59 | The controller's evaluation of a class that requests a processor is Accepted on that Cell, whose history is backed. |
| `AcceptedCell.AcceptanceIsCovered` | internal/controller/plan_evaluator.go:128-143 | Soundness applies to it: its lists cover request plus reservation in amounts and leave a NodePort free. |
| `LifecycleOrphans.AlwaysSound` | internal/controller/virtualcluster_controller.go:86-573 | The whole invariant (the worker's copy, accepted rounds, derived names, progress of a deletion, the mirror guard, backed Cell histories) holds on every run. |
| `LifecycleOrphans.AlwaysHomed` | internal/controller/virtualcluster_controller.go:526-536 | On every steady run all Works of a cluster are in the saved managed cluster or, without a snapshot, in that of a Cell that cannot go away. |
| `LifecycleInvariants.ApplyKeepsSound` | internal/controller/virtualcluster_controller.go:86-573 | Every action of worker, user, Cell, class, agent and third party keeps the invariant. |
| `LifecycleInvariants.ApplyKeepsBacked` | internal/controller/cell_controller.go:67-208 | The history of a stored Cell, and of the copy a round holds, stays backed by the lists of a successful projection. |
| `LifecycleInvariants.ProvisionWrites` | internal/controller/virtualcluster_controller.go:175-317 | The frame of a reconcile step: at most one Work, at its derived key, with the cluster's UID and the resolved content, created or patched; at most the admin Secret. |
| `LifecycleInvariants.CleanupRemoves` | internal/controller/virtualcluster_controller.go:517-566 | The frame of a deletion step: nothing is added. |
| `LifecycleInvariants.EvaluatedIsAccepted` | internal/controller/virtualcluster_controller.go:112-174 | A round goes on to write only when it was Accepted, on a Ready Cell, with a resolution that agrees with its snapshot. |
| `LifecycleInvariants.CleanupClears` | internal/controller/virtualcluster_controller.go:517-566 | Safety of each stage of a deletion: what it has established is no Secret, then no Instance Work, then no Foundation Work. (Progress is `LifecycleDeletion.DeletionEnds`.) |
| `Lifecycle.ControllerIsUsable` | internal/controller/virtualcluster_controller.go:117-129 | The controller's names and resolution meet what the protocol needs of them. |
| `LifecycleGates.OwnershipIsRespected` | internal/controller/virtualcluster_controller.go:493-515 | No step of a calm run patches or deletes a Work, or deletes a Secret, of another UID (publishing the admin Secret excepted). |
| `LifecycleGates.ForeignUntouchedIff` | internal/controller/virtualcluster_controller.go:493-604 | Exactly, in any state with a round running: a successful step leaves every foreign Work and Secret as it is if and only if what is now at the key that it patches or deletes is absent or carries the round's UID. |
| `LifecycleWitness.SwappedWorkIsPatched` | internal/controller/virtualcluster_controller.go:496-514 | Without calm: a run of the controller from the empty world in which a foreign Work, put in place of the checked one, is overwritten. |
| `LifecycleGates.WritesAreGated` | internal/controller/virtualcluster_controller.go:97-200 | On every run each Work write follows the saved finalizer, in a round accepted against the snapshot on a backed Ready Cell, and each Instance write follows an Applied, not Degraded Foundation Work, which on a calm run is the cluster's own. |
| `LifecycleGates.InstanceWritesFit` | internal/controller/virtualcluster_controller.go:137-147 | End to end with the controller's functions: at every Work write of every run, the lists behind the Cell's inventory cover request plus reservation, the requested devices and a NodePort. |
| `LifecycleGates.MirrorSurvives` | internal/controller/virtualcluster_controller.go:239-317 | An existing Instance Work gets new content only from a round that observed its applied Work, found the child API up and listed the Ingresses; only a deletion round removes it. |
| `LifecycleGates.IntentIsTheListing` | internal/controller/virtualcluster_controller.go:286-297 | The mirrored objects of such a write are exactly the listed ones. |
| `LifecycleGates.ReadyIsObserved` | internal/controller/virtualcluster_controller.go:245-325 | On every run without a partial probe of a Ready cluster, phase Ready in a saved status means that all three child flags are true and the observation that set them succeeded. |
| `LifecycleProgress.ProbedRoundSaves` | internal/controller/virtualcluster_controller.go:245-325 | From any world at the probe of an applied Instance Work, with a usable or absent endpoint and no failing call: the round saves the probed flags and its snapshot, in phase Ready if and only if API, node and storage are all up and Provisioning otherwise; what was listed is in the Instance Work, and without a listing no Work is touched. |
| `LifecycleProgress.RoundSettles` | internal/controller/virtualcluster_controller.go:86-325 | The same for every whole round of a provisioned cluster on an accepting Cell, whatever its phase was, with the snapshot kept or taken and the mirrored objects written. |
| `LifecycleReady.ReadyIsReached` | internal/controller/virtualcluster_controller.go:86-325 | A run of the controller from the empty world, for every name and fingerprint, that ends in phase Ready. |
| `LifecycleProgress.RefusedRoundSaves` | internal/controller/virtualcluster_controller.go:112-174 | The phase of a round that ends before its first write: Degraded on a Cell that is not Ready or an undecided plan, Failed on an unresolvable class, a drifted snapshot or a rejected plan, as it was without host addresses; and which snapshot it saves. |
| `LifecycleProgress.FailedProbeSaves` | internal/controller/virtualcluster_controller.go:246-258 | A failed probe clears the flags and makes a Ready cluster Degraded. |
| `LifecycleProgress.UnprobedRoundSaves` | internal/controller/virtualcluster_controller.go:228-245 | Without an observer or with an unapplied Instance Work the stored flags decide the phase; an unavailable observer leaves the status. |
| `LifecycleProgress.UnreadPodsSave` | internal/controller/virtualcluster_controller.go:277-285 | Unreadable Pods end the round with the probed flags saved and the phase as it was. |
| `LifecycleProgress.UnappliedFoundationSaves` | internal/controller/virtualcluster_controller.go:182-199 | A degraded Foundation Work ends the round in phase Degraded, an unapplied one in phase Provisioning. |
| `LifecycleProgress.DegradedInstanceSaves` | internal/controller/virtualcluster_controller.go:200-214 | A degraded Instance Work ends the round in phase Degraded. |
| `LifecycleProgress.RoundWritesFoundation` | internal/controller/virtualcluster_controller.go:112-181 | Every round that may go on writes the Foundation Work and nothing else, with the current resolution and the addresses it was given. |
| `LifecycleProgress.InstanceIsCreated` | internal/controller/virtualcluster_controller.go:298-317 | Behind an applied Foundation Work a missing Instance Work is created with the round's resolution and addresses and no mirrored objects. |
| `LifecycleProgress.AfterIsRun` | internal/controller/virtualcluster_controller.go:86-573 | Consecutive steps of the worker are a run in which nobody else acts. |
| `LifecycleGates.ReadyKeptIff` | internal/controller/virtualcluster_controller.go:245-325 | Exactly: a step keeps that meaning of Ready if and only if it is not a probe that tells a Ready cluster, without an error, that not everything is up. |
| `LifecycleGates.PartialProbeStaysReady` | internal/controller/virtualcluster_controller.go:259-271 | An observer with partial results breaks this. |
| `LifecycleSnapshot.SnapshotNeverChanges` | internal/controller/virtualcluster_controller.go:130-136 | On every run a saved snapshot stays for as long as the cluster with that UID exists. |
| `LifecycleSnapshot.SnapshotIsStable` | api/v1alpha1/webhooks.go:73-116 | On every run that keeps the class, the saved snapshot of a live cluster equals, in all fields, what its Cell and class resolve to now. |
| `LifecycleSnapshot.DriftIsUnreachable` | internal/controller/virtualcluster_controller.go:119-136 | So no round of a live cluster can report ResolvedDrift. |
| `LifecycleSnapshot.DriftIff` | internal/controller/virtualcluster_controller.go:606-624 | On every run of the controller on which the Cell stays, a live cluster's snapshot and a new resolution differ in nothing that the Cell determines, and drift is found if and only if the class has another UID, quota, storage class or fingerprint. |
| `LifecycleSnapshot.RecreatedClassFails` | internal/admission/kubecell_webhooks.go:122-148 | Deleting and re-creating the class makes the next round save phase Failed. |
| `LifecycleSnapshot.LiveCellIsKept` | api/v1alpha1/webhooks.go:73-90 | While a live cluster refers to it, a Cell with its finalizer keeps UID and spec under every action but the removal of a Cell that was listed as unused. |
| `Deletion.BuildDeletionPlan` | internal/controller/deletion.go:16-30 | Blocked exactly when a Work is foreign or the UID is empty; otherwise Instance before Foundation, as far as they exist. |
| `ChildObserver.ObserveResources` | internal/provider/k3k/child_observer.go:60-95 | Ok exactly when the Secret is trusted and the Service has an HTTPS NodePort, and then the first one: a kubeconfig under the cluster's UID label or, without one, a K3k owner, a positive NodePort of port 443, and no flag set. |
| `ChildObserver.ReadyNode` | internal/provider/k3k/child_observer.go:241-251 | The first Ready node, or none when there is none. |
| `ChildObserver.ProbeAddresses` | internal/provider/k3k/child_observer.go:131-170 | Ok exactly when an address is reached past addresses that are down; the flags, endpoint, kubeconfig and node are all of that address. |
| `ChildObserver.Observe` | internal/provider/k3k/child_observer.go:109-171 | Ok exactly under these conditions and a certified storage class; then complete. |
| `ChildObserver.ObserveForLifecycle` | internal/provider/k3k/child_observer.go:109-171 | The observer is all-or-error, so it meets the assumption of the Ready invariant; it succeeds exactly when an address is reached, with all three flags and a published endpoint when that parses. |
| `Labels.LabelsIdentifyTheOwner` | internal/controller/helpers/labels.go:3-30 | Applied labels match the identity they were made for and no other, over any other labels. |
| `Labels.KeysAreDistinct` | internal/controller/helpers/labels.go:3-13 | The label keys are told apart by their texts. |
| `Names.HostNamespaceIsLabel` | internal/controller/helpers/names.go:35-71 | The host namespace fits the 63-octet limit of section 2.3.4 of RFC 1035, ends in the UID part, and uses [a-z0-9-] if and only if the UID part does. |
| `Names.DifferentUidsNeverCollide` | internal/controller/helpers/names.go:35-58 | Clusters whose UID parts differ share none of the derived names. |
| `Names.FoundationIsNotInstance` | internal/controller/helpers/names.go:35-58 | No Foundation Work name is an Instance Work name. |
| `Names.NamesAre` | internal/controller/helpers/names.go:35-71 | The five names spelled out, where nothing has to be replaced or shortened. |
| `Conditions.SetCondition` | internal/controller/helpers/conditions.go:5-20 | Overwrites the first condition of the kind or appends: the new status and reason are found, the transition time moves exactly when the status does, and other kinds stay. |
| `Conditions.SetIsSeen` | internal/controller/helpers/conditions.go:5-20 | A later lookup of the kind sees the new condition, and no other kind changes. |
| `Resolution.ResolveVirtualCluster` | internal/controller/resolution.go:16-91 | Ok exactly when every device entitlement is declared, positive, whole and paired; then the snapshot of Cell and class, with the platform's versions and reservations spelled out, and every requested device is declared and limited in the same positive whole amount. |
| `Resolution.ProfileFingerprint` | internal/controller/resolution.go:96-111 | A function of profile, quota and storage class, whatever the map iteration order. |
| `Resolution.FingerprintIsJoined` | internal/controller/resolution.go:96-111 | The hashed text is the joined lines: profile, storage class, devices in the profile's order, quota keys in ascending order. |
| `Resolution.SameProviderIff` | internal/controller/virtualcluster_controller.go:606-624 | Two snapshots are the same provider if and only if they are equal but for the printed format of equal quota amounts. |
| `Resolution.CollectSorted` | internal/controller/resolution.go:96-111 | Listing a map's keys in any order and sorting them gives the one sorted listing. |
| `Sorting.OrderedIsUnique` | internal/controller/resolution.go:96-111 | Any ordered listing of a set is the sorted one. |
| `Plan.Finalize` | internal/controller/plan_evaluator.go:258-283 | Sorts the checks and decides: Rejected if one failed, else Undecided if one is unknown or there is none, else Accepted. |
| `Plan.DecisionIgnoresOrder` | internal/controller/plan_evaluator.go:258-283 | The decision depends on the checks only as a multiset. |
| `Plan.EntitlementRequests` | internal/controller/plan_evaluator.go:76-86 | What a class requests of each resource, whatever the iteration order. |
| `Plan.AcceleratorCheck` | internal/controller/plan_evaluator.go:155-179 | The status does not depend on the order in which requests are visited or on where the loop returns. |
| `Plan.HostQuotaCheck` | internal/controller/plan_evaluator.go:181-193 | The status of the quota table, in any order. |
| `Plan.NodePortCheck` | internal/controller/plan_evaluator.go:208-224 | Counts distinct ports of the range. |
| `Plan.NodePortPassesIffFree` | internal/controller/plan_evaluator.go:208-224 | Pigeonhole: on a fresh list the check passes if and only if a port of 30000-32767 is free. |
| `Plan.ComputeChecks` | internal/controller/plan_evaluator.go:128-143 | The compute checks in amounts: request plus 600 milli of CPU, request plus 1.25 GiB of memory, and the requested ephemeral storage, against the stored inventory; then the accelerator check. |
| `Plan.RequiredAmounts` | internal/platform/platform.go:37-70 | What is required of each compute resource, in amounts. |
| `Plan.EvaluatePlan` | internal/controller/plan_evaluator.go:28-59 | The decision is the function Evaluate; a missing Cell or class is undecided. |
| `Plan.AcceptedIff` | internal/controller/plan_evaluator.go:28-59 | Accepted if and only if the class resolves and every check passed. |
| `PlanMeaning.AcceptedExactly` | internal/controller/plan_evaluator.go:28-224 | Accepted if and only if the class resolves, the Cell is up with a fresh lease, baseline and inventory and K3k v1.2.0, each compute entry is known and covers request plus reservation in amounts, each requested device fits on one node, every request has an equal limit, the storage class has space and a port of 30000-32767 is free. |
| `PlanMeaning.RejectedExactly` | internal/controller/plan_evaluator.go:28-224 | Rejected if and only if a known fact is bad: the class does not resolve, another K3k version, a known compute entry below request plus reservation, a device that fits on no node although one serves, an unpaired request, or a full port range. |
| `Quantities.AddResourceList` | internal/controller/helpers/quantities.go:31-37 | Adds every key of the source once, in any order. |
| `Quantities.SubtractResourceList` | internal/controller/helpers/quantities.go:39-52 | Subtracts per key with a floor at zero. |
| `Quantities.EffectivePodRequests` | internal/controller/helpers/quantities.go:8-29 | Per resource the larger of the containers' sum and the largest init container, plus overhead. |
| `Quantities.EffectiveIsLeast` | internal/controller/helpers/quantities.go:8-29 | Without the overhead, the least amount that covers the containers together and each init container alone. |
| `Quantities.OneContainerMore` | internal/controller/helpers/quantities.go:8-29 | Containers add up. |
| `Inventory.ObserveNode` | internal/provider/host/inventory.go:21-59 | Ready if and only if the first Ready condition is true, the label is the profile's and every declared device has a positive capacity and allocatable amount; compute resources and devices are copied as they are. |
| `Inventory.AggregateResourceInventory` | internal/provider/host/inventory.go:61-88 | All nodes and the Pods of one cluster, one resource: Requested is the sum over Running and Unknown Pods, Pending that over Pending ones. |
| `Inventory.RequestsByPhase` | internal/controller/cell_controller.go:237-268 | Requested is the sum of effective requests over the Running and Unknown Pods of the named clusters, Pending that over the Pending ones, and together they are all Pods of those clusters that have not ended. |
| `Inventory.OnePodMore` | internal/controller/cell_controller.go:237-268 | What one more Pod adds, by phase: to Requested, to Pending, or to neither when it has ended or belongs to no named cluster. |
| `Inventory.OneNodeMore` | internal/controller/cell_controller.go:269-299 | What one more node adds to a stored entry, and the estimate after it. |
| `Inventory.RequestsAreConserved` | internal/controller/cell_controller.go:237-268 | Every counted Pod is in exactly one per-node sum, or in that of the Pods without a node. |
| `Inventory.RequestsSplitByCluster` | internal/controller/cell_controller.go:237-268 | Requests of several clusters are the sum of the requests of each. |
| `Inventory.TotalsAgree` | internal/controller/cell_controller.go:269-299 | When every node serves the profile and declares capacity for what it allocates, the totals are those of all nodes. |
| `Inventory.EntryRefinesAggregate` | internal/provider/host/inventory.go:61-88 | Requested and Pending of the stored inventory are the sums over the Cell's clusters of the simple aggregate, and Capacity and Allocatable agree when all nodes serve the profile. |
| `Projection.AddToNode` | internal/controller/cell_controller.go:480-489 | Adds into one node's list and no other. |
| `Projection.ProjectPods` | internal/controller/cell_controller.go:237-268 | The inventory columns and node maps by phase: Running and Unknown Pods are in Requested and in the active map of their node, Pending ones in Pending and in the waiting map, and nothing else counts. |
| `Projection.NodeMapsConserve` | internal/controller/cell_controller.go:237-268 | Requested equals the per-node maps plus the Pods without a node. |
| `Projection.CountNode` | internal/controller/cell_controller.go:269-299 | Adds one serving node and floors the estimate again. |
| `Projection.ProjectNodes` | internal/controller/cell_controller.go:269-299 | The stored nodes and inventory describe the lists; flooring at every node loses nothing, whatever the order. |
| `Projection.ProjectNodePorts` | internal/controller/cell_controller.go:332-347 | The stored ports are the positive NodePorts of all Services, each as often as it is listed, in ascending order. |
| `Projection.ChargeVolumes` | internal/controller/cell_controller.go:355-440 | Volumes are charged to their class and host. |
| `Projection.FreeNodes` | internal/controller/cell_controller.go:355-440 | Node capacities are added per class, and nodes that report are counted. |
| `Projection.ProjectStorage` | internal/controller/cell_controller.go:355-440 | Succeeds exactly when every class is fully counted, and then every stored class is complete; a failure leaves the full table with one class withdrawn that was not counted. |
| `Storage.FullCountMeansAllReport` | internal/controller/cell_controller.go:355-440 | As many reports as Ready nodes means that every Ready node reported, and once. |
| `Storage.FreeIsSumOfNodes` | internal/controller/cell_controller.go:442-464 | Free capacity of a class is the sum of the node entries. |
| `Storage.AllocatedIsSumOfNodes` | internal/controller/cell_controller.go:466-478 | Allocated volumes are the node entries plus the volumes without a local node. |
| `Storage.FullCountIsComplete` | internal/controller/cell_controller.go:355-440 | A fully counted class is stored complete: every Ready node is entered with its own report, the free total is the sum of the stored entries, and the allocated total that of the entries plus the volumes without a local node. |
| `Storage.OneVolumeMore` | internal/controller/cell_controller.go:355-440 | What one more volume adds: its capacity to its class when it is bound, there also to the host it is local to, and nothing anywhere else. |
| `Storage.HostIsLocal` | internal/controller/cell_controller.go:466-478 | A volume is local to the value of the first single-valued hostname requirement of its node affinity. |
| `Storage.ReportIs` | internal/controller/cell_controller.go:442-464 | What a node reports: the annotation of the device class or of the default one, when it is not negative. |
| `Storage.OneReportMore` | internal/controller/cell_controller.go:355-440 | What one more node adds to the free total and to the count. |
| `Storage.OneClassMore` | internal/controller/cell_controller.go:355-440 | What one more storage class adds: its device class under its name when TopoLVM provisions it, over an earlier one of the name. |
| `CellController.CellObject.Report` | internal/controller/cell_controller.go:540-542 | Sets one condition of the status and nothing else. |
| `CellController.CellObject.ProjectStorageInventory` | internal/controller/cell_controller.go:355-440 | The stored storage inventory and whether it is complete; a failed read leaves the table alone, an incomplete count withdraws one class. |
| `CellController.CellObject.ProjectCompute` | internal/controller/cell_controller.go:231-300 | Stored nodes and inventory describe the listed nodes and Pods, and a node serving the profile is reported exactly when there is one. |
| `CellController.CellObject.ProjectServices` | internal/controller/cell_controller.go:311-327 | The NodePorts are stored when they can be read, and otherwise marked unknown. |
| `CellController.CellObject.ProjectInventory` | internal/controller/cell_controller.go:231-330 | True exactly when the lists can be projected, and then the stored inventory is their projection; InventoryFresh lingers exactly after two kinds of failure. |
| `CellController.CellObject.ObserveInventory` | internal/controller/cell_controller.go:144-200 | The inventory part of a round, with failing reads. |
| `CellController.CellObject.Reconcile` | internal/controller/cell_controller.go:67-208 | One round is a step of the Cell's status relation: phase Ready exactly after a projection that returned true, all status fields and conditions given, and InventoryFresh, which some failures leave standing, exactly as it was or as it is observed. |
| `CellController.ReadyIffQualifies` | internal/controller/cell_controller.go:67-208 | A round ends in phase Ready if and only if the managed cluster is joined and available with a fresh lease, the baseline was read with all five components ready, and the lists can be projected; a baseline that was not read is stored as not ready. |
| `CellController.FreshMayLinger` | internal/controller/cell_controller.go:270-330 | InventoryFresh stays as it was where no node serves the profile, is taken back when nodes or Pods cannot be read, and is set by a projection. |
| `CellController.EligibleAsStored` | internal/controller/cell_controller.go:300-330 | The Ready names read back from the stored nodes are the serving nodes of the list. |
| `CellController.StepKeepsBacked` | internal/controller/cell_controller.go:67-208 | In every reachable status, phase Ready means that the stored inventory is the projection of recorded lists. |
| `Feasibility.AcceptedIsSound` | internal/controller/plan_evaluator.go:28-224 | For every reachable Cell status, Accepted means that the lists behind it leave 600 milli of CPU and 1.25 GiB of memory beside what the class requests, and its ephemeral storage, after the Pods that run or are unknown; that each requested device fits on one serving node; and that a NodePort is free. |
| `Feasibility.FullCellIsRejected` | internal/controller/plan_evaluator.go:128-153 | The other half: where the lists behind a Ready Cell leave less than that of a resource that is offered, the plan is Rejected. |
| `Feasibility.FewerPodsStayAccepted` | internal/controller/plan_evaluator.go:128-179 | Removing tenant Pods never turns Accepted into anything else. |
| `Affinity.HasRequirement` | internal/admission/host_workload.go:423-430 | Finds exactly the profile requirement. |
| `Affinity.MeaningAfter` | internal/admission/host_workload.go:222-247 | The exact meaning: admitted after if and only if of the profile and admitted before, or the selector had an empty term or none. |
| `Affinity.ProfileIsEnforced` | internal/admission/host_workload.go:222-247 | Always within the profile; equal to the intersection where no term is empty. |
| `Affinity.IntersectionIff` | internal/admission/host_workload.go:222-247 | It is the intersection if and only if nothing widens or every node of the profile was admitted anyway. |
| `Affinity.EmptyTermWidens` | internal/admission/host_workload.go:235-245 | An empty term does widen. |
| `Affinity.WithProfileTwice` | internal/admission/host_workload.go:222-247 | Rewriting twice is rewriting once. |
| `HostAdmission.ValidateAffinity` | internal/admission/host_workload.go:334-371 | No violation if and only if the affinity is allowed. |
| `HostAdmission.ValidateDeviceResources` | internal/admission/host_workload.go:271-302 | No violation if and only if every device is allowed, declared twice, equal, positive and whole, in any order. |
| `HostAdmission.AllowedStorageNodeValues` | internal/admission/host_workload.go:398-412 | All values are approved storage nodes. |
| `HostAdmission.IsK3kGeneratedPreference` | internal/admission/host_workload.go:373-386 | Recognises exactly the generated preference. |
| `HostAdmission.ResourcesEqual` | internal/admission/host_workload.go:141-152 | Comparing sizes and one side's entries is equality of the tables. |
| `HostAdmission.HostPod.Validate` | internal/admission/host_workload.go:34-95 | No violation if and only if the Pod is admissible. |
| `HostAdmission.HostPod.AddProfileAffinity` | internal/admission/host_workload.go:222-247 | In place: the affinity is tied to the profile, nothing else changes, and a change is reported exactly when there is one. |
| `HostAdmission.HostPod.MutateReflectedPod` | internal/admission/host_workload.go:317-332 | Ok exactly for admissible Pods, which are then tied, others are left alone; a change is reported exactly when there is one. |
| `HostAdmission.HostPod.MutateReflectedSystemPod` | internal/admission/host_workload.go:158-208 | In place: every container gets its missing reserved amounts, and a change is reported exactly when there is one. |
| `HostAdmission.HostPod.MutateK3kInfraPodResources` | internal/admission/host_workload.go:113-139 | In place: empty or defaulted containers take the Pod's amounts, and exactly then a change is reported. |
| `HostAdmission.HostPod.MutateReflectedSystemPodForPolicy` | internal/admission/host_workload.go:210-220 | Both, for Pods of the policy's own cluster, with the same exact report. |
| `HostAdmission.HostPod.Handle` | internal/admission/host_webhook.go:74-106 | The verdict and the rewritten Pod of the webhook, by kind of Pod. |
| `AdmissionStability.TiedStaysAdmissible` | internal/admission/host_workload.go:34-95 | A Pod that validates still validates after it was tied. |
| `AdmissionStability.ReservationIsConsistent` | internal/admission/host_workload.go:163-200 | Declared amounts stay, only reserved names are added, and a reserved name ends set and in order if and only if the declared amounts were in order. |
| `AdmissionStability.ReservedAmounts` | internal/admission/host_workload.go:158-208 | The amounts every container of a reflected system Pod ends with: declared ones stay, missing ones are the reserved amount, the request kept within the limit. |
| `AdmissionStability.ReservedTwice` | internal/admission/host_workload.go:158-208 | Reserving twice is reserving once. |
| `AdmissionStability.InheritedTwice` | internal/admission/host_workload.go:113-139 | Inheriting twice is inheriting once. |
| `AdmissionStability.InheritedAmounts` | internal/admission/host_workload.go:113-139 | A container that is empty or just defaulted takes the Pod's requests as requests and its limits as limits; everything else stays. |
| `AdmissionStability.TiedTwice` | internal/admission/host_workload.go:222-247 | Tying twice is tying once. |
| `AdmissionStability.TiedKeepsTheRest` | internal/admission/host_workload.go:222-247 | Tying touches the required node terms and nothing else; each term stays or gets the profile appended. |
| `AdmissionStability.ReinvocationIsStable` | internal/admission/host_webhook.go:77-106 | What the webhook made of a Pod is not denied when it is invoked again, and not changed again. |
| `AdmissionStability.AdmittedStaysOnProfile` | internal/admission/host_webhook.go:88-106 | A patched Pod runs on nodes of its profile only. |
| `AdmissionStability.AdmittedIffConfined` | internal/admission/host_workload.go:34-95 | A Pod that is neither K3k's own nor a reflected system Pod is let through if and only if it is confined: namespace, owner, no Host access, allowed placement, plain containers with whole paired devices. |
| `AdmissionStability.VerdictByKind` | internal/admission/host_webhook.go:74-106 | The verdict by the labels of Pod and policy, in all four cases. |
| `MirrorAssembly.MirrorEndpoints` | internal/render/render.go:336-362 | Copies the subsets: the same addresses, protocols and ports, with port names stripped, and none for unread Endpoints. |
| `MirrorAssembly.Add` | internal/render/render.go:267-288 | The innermost loop body keeps emitted objects, seen names, rules and order equal to their declared values. |
| `IngressMirror.MirrorServicePort` | internal/render/render.go:303-316 | The number, or the first positive port of that name. |
| `MirrorRules.RenderIngressMirror` | internal/render/render.go:229-301 | The nested loops with their maps give the declared mirror, and on its objects: an Ingress of a name holds a rule if and only if a path of a mirrored child Ingress gives it. |
| `MirrorRules.RulesAreThosePaths` | internal/render/render.go:246-371 | An Ingress holds a rule if and only if some entry and path of class kubecell have its host (name, cluster, suffix), its path, its path type or ImplementationSpecific, its port and its Service, and the Ingress's name derived from namespace and name. |
| `MirrorRules.ObjectsComeFromPaths` | internal/render/render.go:263-280 | Every emitted Service has a name and port that a path asks for, and emitted Endpoints hold the addresses and ports at hand for such a path. |
| `MirrorRules.PortIs` | internal/render/render.go:303-316 | The port of a backend is its number if positive, or else the first positive port of that name. |
| `MirrorClosure.MirrorIsClosed` | internal/render/render.go:246-300 | Names are unique per kind, and every rule of every Ingress has its Service and same-named Endpoints. |
| `MirrorClosure.EveryWantIsMirrored` | internal/render/render.go:281-300 | No rule is lost. |
| `MirrorClosure.FirstsCameFirst` | internal/render/render.go:268-280 | What is emitted under a name is what asked for it first. |
| `MirrorClosure.PortsAgreeIff` | internal/render/render.go:263-288 | Every rule's port is its Service's port if and only if no Service name is asked for with two ports. |
| `MirrorClosure.EndpointsAgreeIff` | internal/render/render.go:267-288 | Every rule is served by the Endpoints of its own backend if and only if no Service name is first asked for with other Endpoints than those of a rule that uses it. |
| `MirrorClosure.SharedNamesIff` | internal/render/render.go:267-288 | A name shared by backends with different Endpoints always breaks this, and where each path comes with its own Endpoints nothing else does. |
| `Decimal.SuffixIsReadable` | internal/render/render.go:318-320 | A decimal suffix after a dash can be read back, whatever is in front. |
| `Decimal.NumeralReadsBack` | internal/render/render.go:318-320 | Reading a numeral gives the number. |
| `MirrorSources.WantsAreVisited` | internal/render/render.go:246-291 | The wants are exactly those of the visited paths. |
| `MirrorSources.RenderedMirrorIsSound` | internal/render/render.go:229-327 | The mirror of any entries is closed, and where no name was truncated every rule's port is its Service's port. |
| `MirrorSources.NameTellsPort` | internal/render/render.go:267-267 | An untruncated Service name determines its port. |
| `MirrorSources.TruncationMixesPorts` | internal/render/render.go:322-327 | An Ingress name of 59 characters with two ports behind it breaks this. |
| `MirrorSources.CollectBackends` | internal/controller/virtualcluster_controller.go:340-388 | The caches change nothing: the entries are exactly those read for a path of a listed Ingress of class kubecell whose Service is readable. |
| `MirrorSources.OneBackendIsPaired` | internal/render/render.go:255-279 | For an Ingress with one backend Service the entry at hand is the one read for the visited path (what is emitted is EndpointsAreRight). |
| `MirrorSources.OneBackendEachIff` | internal/render/render.go:229-301 | With one backend per Ingress, every rule of the rendered mirror gets the Endpoints of its own backend if and only if no Service name is shared by backends with different Endpoints. |
| `MirrorSources.EndpointsAreRight` | internal/render/render.go:229-301 | What a caller can check on the child: with one backend per Ingress and no Service name shared by two child Services, every rule of the rendered mirror is served by the Endpoints of its own backend. |
| `MirrorSources.TwoBackendsMixEndpoints` | internal/render/render.go:255-279 | With two backends the rendered mirror holds the second Service with the Endpoints of the first, so a rule is served by the wrong ones. |
| `MirrorSources.NamespacesShareServices` | internal/render/render.go:267-280 | Equally named Ingresses of different child namespaces share one Service in the rendered mirror, so a rule is served by the wrong Endpoints. |
| `MirrorSources.DashesShareServices` | internal/render/render.go:267-267 | Ingress a with backend b-c and Ingress a-b with backend c share one Service, within one namespace and with nothing truncated, so a rule is served by the wrong Endpoints. |
| `MirrorSources.CollisionExample` | internal/render/render.go:267-280 | One such input, spelled out. |
| `Quota.AccountsBalance` | internal/provider/host/quota.go:26-60 | Exceeded if and only if a used key was floored from below zero; otherwise headroom, usage and reservation add up to the quota. |
| `Quota.ReservationApplies` | internal/provider/host/quota.go:62-75 | A reservation of a resource applies to its requests and its limits key alike, unless those have their own. |
| `Quota.PlatformHeadroom` | internal/provider/host/quota.go:26-42 | With the platform's reservations, 600 milli of CPU and 1.25 GiB of memory are taken off both the request and the limit quota. |
| `Quota.ReservationForQuotaKey` | internal/provider/host/quota.go:62-75 | The reservation of the key itself, or of the resource behind its prefix. |
| `Quota.TenantHeadroom` | internal/provider/host/quota.go:26-42 | The headroom, in fresh quantities; hard, used and reservation keep their amounts although subtraction works in place. |
| `Quota.ReservationExceeded` | internal/provider/host/quota.go:44-60 | Exactly when exceeded; hard, used and reservation keep their amounts. |
| `Quota.Combine` | internal/controller/virtualcluster_controller.go:438-446 | The two reservations added per key, in fresh quantities. |
| `Quota.HostObservation.ProjectHostQuota` | internal/controller/virtualcluster_controller.go:427-450 | Only the observation changes; it holds the combined reservation, the headroom and whether it is exceeded, or nothing without a quota. |

## Left out

- The website, the installer, the command line, network clients, TLS, YAML and JSON encoding, and the literal manifests of the Foundation and Instance Works: a Work's content is its snapshot, its addresses and its mirrored objects.
- Real time: lease freshness and the outcome of every read are inputs; requeue delays, logs and message texts are dropped, and of the conditions of a VirtualCluster only the phase, snapshot and child flags are kept in the lifecycle.
- SHA-256 and the printing of quantities are uninterpreted functions; amounts are integers in milli-units, a device amount is whole when it is divisible by 1000, and nil and empty resource lists are one value.
- The lifecycle has one worker per VirtualCluster and current reads. Publishing the admin Secret (a read and a create or update) is one step.
- Users who strip finalizers by hand, and third parties who forge the UID label of an existing or former cluster.
- The creation webhooks: classes and clusters are not validated when they are created, so more runs are covered than can occur; of the Cell webhook only what the theorems need is kept.
- Workloads: the namespace lookup, the parsing of its annotations and the resolution of storage nodes are inputs of the webhook's `Handle`.
- Library sorting stands behind one contract, proved for an insertion sort.
- `discoverHostAPIAddresses`, `projectPlacements`, VirtualClusterPlan objects and the quota-denial texts.
- LifecycleGates.OwnershipIsRespected: says nothing about publishing the admin Secret, because that update does not check the UID label.
- Feasibility.AcceptedIsSound: the device claim assumes that Pod amounts are not negative, which the API server ensures, or that the Cell's profile is still the projected one.
- LifecycleGates.InstanceWritesFit: makes the same assumption for its device claim.
- LifecycleDeletion.DeletionEnds: asks of the environment that nobody else acts meanwhile and that deleted Works do not linger; when a lingering Work goes is the OCM agent's affair.
- MirrorSources.CollectBackends: the child answers one read the same way throughout a round.
