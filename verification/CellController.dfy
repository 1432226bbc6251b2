/** The Cell reconciler (internal/controller/cell_controller.go): what each round stores, and what a reachable
    stored status says about the host lists it came from. */
module CellController {
  import opened Api
  import Conditions
  import Inventory
  import Plan
  import Projection
  import Storage

  datatype Read<+T> = ReadFailed | Got(value: T)

  datatype StorageReads = StorageReads(pvs: Read<seq<Storage.Volume>>, claimsRead: bool, classes: Read<seq<Storage.StorageClass>>)

  /** One answer per host call; None where the reader does not implement the call. */
  datatype HostReads = HostReads(
    nodes: Read<seq<Node>>, pods: Option<Read<seq<Pod>>>, storage: Option<StorageReads>, services: Option<Read<seq<seq<int>>>>)

  datatype Reader = NoReader | ReaderFailed | Reader(host: HostReads)

  datatype Baseline = NoBaseline | BaselineFailed | Baseline(provider: ProviderStatus)

  datatype Lease = LeaseFresh | LeaseStale | LeaseUnreadable

  /** Everything a round learns from outside; `clusters` are the K3k names of the Cell's VirtualClusters. */
  datatype Round = Round(
    managedCluster: Option<(bool, bool)>, lease: Lease, baseline: Baseline, clusters: Read<set<string>>, reader: Reader, now: int)
  {
    predicate Joined() { managedCluster.Some? && managedCluster.value.0 }
    predicate Available() { managedCluster.Some? && managedCluster.value.1 && lease.LeaseFresh? }
    function Provider(): ProviderStatus {
      if baseline.Baseline? then baseline.provider.(k3kVersion := K3K_VERSION)
      else ProviderStatus(K3K_VERSION, false, false, false, false, false)
    }
  }

  /** The lists behind a projection. */
  datatype Lists = Lists(
    profile: MachineProfile, names: set<string>, nodes: seq<Node>, pods: seq<Pod>,
    classes: map<string, string>, pvs: seq<Storage.Volume>, services: Option<seq<seq<int>>>)

  function Eligible(nodes: seq<Node>, profile: MachineProfile): set<string> {
    set i | 0 <= i < |nodes| && Inventory.ServesProfile(nodes[i], profile) :: nodes[i].name
  }

  function PodsOf(pods: Option<Read<seq<Pod>>>): seq<Pod> {
    if pods.Some? && pods.value.Got? then pods.value.value else []
  }

  /** The host of a projection all succeeded, so its lists exist. */
  predicate AllRead(host: HostReads) {
    && host.nodes.Got? && (host.pods.Some? ==> host.pods.value.Got?)
    && host.storage.Some? && host.storage.value.pvs.Got? && host.storage.value.claimsRead && host.storage.value.classes.Got?
    && (host.services.Some? ==> host.services.value.Got?)
  }

  function ListsOf(host: HostReads, profile: MachineProfile, names: set<string>): Lists
    requires AllRead(host)
  {
    Lists(profile, names, host.nodes.value, PodsOf(host.pods), Storage.TopolvmClasses(host.storage.value.classes.value),
          host.storage.value.pvs.value, if host.services.Some? then Some(host.services.value.value) else None)
  }

  /** A projection succeeds on these lists. */
  predicate Complete(lists: Lists) {
    && Projection.SomeServes(lists.nodes, lists.profile)
    && Projection.StorageCounted(lists.classes, lists.nodes, Eligible(lists.nodes, lists.profile))
  }

  predicate CanProject(host: HostReads, profile: MachineProfile, names: set<string>) {
    AllRead(host) && Complete(ListsOf(host, profile, names))
  }

  ghost predicate PortsDescribed(ports: NodePortStatus, services: Option<seq<seq<int>>>) {
    if services.None? then !ports.isFresh
    else ports.isFresh && forall p :: p in ports.ports <==> Projection.PortListed(services.value, p)
  }

  /** The stored inventory is the projection of the lists. */
  ghost predicate Projected(status: CellStatus, lists: Lists) {
    && Complete(lists)
    && Projection.InventoryDescribed(status.inventory, lists.nodes, lists.pods, lists.names, lists.profile)
    && Projection.NodesDescribed(status.nodes, lists.nodes, lists.pods, lists.names, lists.profile)
    && status.storage == Projection.StorageOf(lists.classes, lists.pvs, lists.nodes, Eligible(lists.nodes, lists.profile))
    && PortsDescribed(status.nodePorts, lists.services)
  }

  predicate SameInventory(a: CellStatus, b: CellStatus) {
    a.nodes == b.nodes && a.inventory == b.inventory && a.storage == b.storage && a.nodePorts == b.nodePorts
  }

  const JOINED := "Joined"
  const AVAILABLE := "Available"
  const PROVIDER_READY := "ProviderReady"
  const NODE_PORTS_FRESH := "NodePortInventoryFresh"
  const ACCELERATOR_READY := "AcceleratorReady"

  /** Failures that return before InventoryFresh is touched: no node serves the profile, or the Services cannot be read. */
  predicate FreshLingers(host: HostReads, profile: MachineProfile) {
    && host.nodes.Got? && (host.pods.Some? ==> host.pods.value.Got?)
    && (!Projection.SomeServes(host.nodes.value, profile)
        || (host.storage.Some? && host.storage.value.pvs.Got? && host.storage.value.claimsRead && host.storage.value.classes.Got?
            && Projection.StorageCounted(Storage.TopolvmClasses(host.storage.value.classes.value), host.nodes.value, Eligible(host.nodes.value, profile))
            && host.services.Some? && host.services.value.ReadFailed?))
  }

  /** InventoryFresh after an observation: true after a projection, false after most failures, and the old value after those
      that linger. So the condition alone does not say that the stored inventory was projected. */
  predicate FreshAfter(was: bool, reader: Reader, profile: MachineProfile, names: set<string>) {
    reader.Reader? && (CanProject(reader.host, profile, names) || (was && FreshLingers(reader.host, profile)))
  }

  /** What one round may make of the stored status. */
  ghost predicate ReconcileStep(before: CellStatus, after: CellStatus, profile: MachineProfile, round: Round) {
    if round.managedCluster.None? then
      && after == before.(phase := CellDegraded, managedCluster := ManagedClusterStatus(false, false, false), conditions := after.conditions)
      && !Conditions.IsTrue(after.conditions, JOINED)
    else
      && after.managedCluster == ManagedClusterStatus(round.Joined(), round.Available(), round.lease.LeaseFresh?)
      && after.provider == round.Provider()
      && Conditions.IsTrue(after.conditions, PROVIDER_READY) == round.Provider().Ready()
      && if round.clusters.ReadFailed? then
        after.phase == before.phase && SameInventory(before, after) && !Conditions.IsTrue(after.conditions, Plan.INVENTORY_FRESH)
      else
        && after.phase in {CellReady, CellDegraded}
        && (after.phase == CellReady <==>
              round.Joined() && round.Available() && round.Provider().Ready() && round.reader.Reader?
              && CanProject(round.reader.host, profile, round.clusters.value))
        && (after.phase == CellReady ==> Projected(after, ListsOf(round.reader.host, profile, round.clusters.value)))
        && Conditions.IsTrue(after.conditions, JOINED) == round.Joined()
        && Conditions.IsTrue(after.conditions, AVAILABLE) == round.Available()
        && Conditions.IsTrue(after.conditions, Plan.INVENTORY_FRESH)
           == FreshAfter(Conditions.IsTrue(before.conditions, Plan.INVENTORY_FRESH), round.reader, profile, round.clusters.value)
  }

  /** What a Ready Cell takes: the managed cluster is joined and available with a fresh lease, the baseline was read with all five
      components ready, and the host's lists were read and can be projected. */
  predicate Qualifies(round: Round, profile: MachineProfile)
    requires round.clusters.Got?
  {
    && round.managedCluster == Some((true, true)) && round.lease == LeaseFresh
    && round.baseline.Baseline? && round.baseline.provider.namespaceReady && round.baseline.provider.crdsReady
    && round.baseline.provider.controllerReady && round.baseline.provider.cniReady && round.baseline.provider.topolvmReady
    && round.reader.Reader? && CanProject(round.reader.host, profile, round.clusters.value)
  }

  /** Exactly then, and the stored provider status is the baseline that was read, or nothing ready. */
  lemma ReadyIffQualifies(before: CellStatus, after: CellStatus, profile: MachineProfile, round: Round)
    requires ReconcileStep(before, after, profile, round) && round.clusters.Got?
    ensures after.phase == CellReady <==> Qualifies(round, profile)
    ensures round.managedCluster.Some? ==> after.provider.k3kVersion == "v1.2.0"
    ensures round.managedCluster.Some? && !round.baseline.Baseline? ==> !after.provider.namespaceReady && !after.provider.Ready()
    ensures round.managedCluster.Some? && round.baseline.Baseline? ==> after.provider == round.baseline.provider.(k3kVersion := "v1.2.0")
  {
    assert round.managedCluster.Some? ==> round.managedCluster == Some((round.managedCluster.value.0, round.managedCluster.value.1));
  }

  /** InventoryFresh is no proof of a projection: where no node serves the profile a round leaves it as it was, while a failed
      read of nodes or Pods takes it back and a projection sets it. */
  lemma FreshMayLinger(before: CellStatus, after: CellStatus, profile: MachineProfile, round: Round)
    requires ReconcileStep(before, after, profile, round) && round.managedCluster.Some? && round.clusters.Got? && round.reader.Reader?
    ensures var host := round.reader.host; var was, is_ := Conditions.IsTrue(before.conditions, "InventoryFresh"), Conditions.IsTrue(after.conditions, "InventoryFresh");
      && (host.nodes.ReadFailed? || host.pods == Some(ReadFailed) ==> !is_)
      && (host.nodes.Got? && (host.pods.Some? ==> host.pods.value.Got?)
          && (forall i :: 0 <= i < |host.nodes.value| ==> !Inventory.ServesProfile(host.nodes.value[i], profile)) ==>
            is_ == was && after.phase == CellDegraded)
      && (after.phase == CellReady ==> is_)
  {
  }

  // ---- the reconciler --------------------------------------------------------------------------

  lemma EligibleAsStored(stored: seq<NodeStatus>, nodes: seq<Node>, pods: seq<Pod>, names: set<string>, profile: MachineProfile)
    requires Projection.NodesDescribed(stored, nodes, pods, names, profile)
    ensures (set i | 0 <= i < |stored| && stored[i].ready :: stored[i].name) == Eligible(nodes, profile)
  {
    var listed :| Projection.AllDescribed(listed, nodes, pods, names, profile) && multiset(stored) == multiset(listed);
    var ready, eligible := (set i | 0 <= i < |stored| && stored[i].ready :: stored[i].name), Eligible(nodes, profile);
    forall h | h in ready ensures h in eligible {
      var i :| 0 <= i < |stored| && stored[i].ready && stored[i].name == h;
      assert stored[i] in multiset(listed);
      var j :| 0 <= j < |listed| && listed[j] == stored[i];
      assert Projection.NodeDescribed(listed[j], nodes[j], pods, names, profile);
    }
    forall h | h in eligible ensures h in ready {
      var j :| 0 <= j < |nodes| && Inventory.ServesProfile(nodes[j], profile) && nodes[j].name == h;
      assert Projection.NodeDescribed(listed[j], nodes[j], pods, names, profile);
      assert listed[j] in multiset(stored);
      var i :| 0 <= i < |stored| && stored[i] == listed[j];
    }
  }

  /** An observation touches the inventory and its conditions only. */
  predicate OnlyInventory(before: CellStatus, after: CellStatus) {
    && after.phase == before.phase && after.managedCluster == before.managedCluster && after.provider == before.provider
    && Conditions.IsTrue(after.conditions, JOINED) == Conditions.IsTrue(before.conditions, JOINED)
    && Conditions.IsTrue(after.conditions, AVAILABLE) == Conditions.IsTrue(before.conditions, AVAILABLE)
    && Conditions.IsTrue(after.conditions, PROVIDER_READY) == Conditions.IsTrue(before.conditions, PROVIDER_READY)
  }

  class CellObject {
    var spec: CellSpec
    var status: CellStatus

    constructor (spec: CellSpec)
      ensures this.spec == spec
      ensures status == INITIAL_STATUS
    {
      this.spec := spec;
      status := INITIAL_STATUS;
    }

    method Report(kind: string, value: bool, reason: string, now: int)
      modifies this`status
      ensures status == old(status).(conditions := Conditions.Set(old(status).conditions, Condition(kind, value, reason, 0), now))
      ensures Conditions.IsTrue(status.conditions, kind) == value
      ensures forall other :: other != kind ==>
        Conditions.IsTrue(status.conditions, other) == Conditions.IsTrue(old(status).conditions, other)
    {
      forall k { Conditions.SetIsSeen(status.conditions, Condition(kind, value, reason, 0), now, k); }
      var conditions := Conditions.SetCondition(status.conditions, Condition(kind, value, reason, 0), now);
      status := status.(conditions := conditions);
    }

    method ReadyNames() returns (names: set<string>)
      ensures names == set i | 0 <= i < |status.nodes| && status.nodes[i].ready :: status.nodes[i].name
    {
      names := {};
      for i := 0 to |status.nodes|
        invariant names == set j | 0 <= j < i && status.nodes[j].ready :: status.nodes[j].name
      {
        if status.nodes[i].ready {
          names := names + {status.nodes[i].name};
        }
      }
    }

    /** Replaces the storage inventory; a failure leaves the old table, or the new one with one class given up. */
    method ProjectStorageInventory(host: StorageReads, nodes: seq<Node>, ghost eligible: set<string>, now: int) returns (ok: bool)
      requires eligible == set i | 0 <= i < |status.nodes| && status.nodes[i].ready :: status.nodes[i].name
      modifies this`status
      ensures status == old(status).(conditions := status.conditions, storage := status.storage)
      ensures ok <==>
        host.pvs.Got? && host.claimsRead && host.classes.Got? && Projection.StorageCounted(Storage.TopolvmClasses(host.classes.value), nodes, eligible)
      ensures ok ==>
        status.storage == Projection.StorageOf(Storage.TopolvmClasses(host.classes.value), host.pvs.value, nodes, eligible)
      ensures !ok ==>
        if host.pvs.Got? && host.claimsRead && host.classes.Got?
        then Projection.StorageGivenUp(status.storage, Storage.TopolvmClasses(host.classes.value), host.pvs.value, nodes, eligible)
        else status.storage == old(status).storage
      ensures Conditions.IsTrue(status.conditions, Plan.INVENTORY_FRESH) == (ok && Conditions.IsTrue(old(status).conditions, Plan.INVENTORY_FRESH))
      ensures forall kind :: kind != Plan.INVENTORY_FRESH ==>
        Conditions.IsTrue(status.conditions, kind) == Conditions.IsTrue(old(status).conditions, kind)
    {
      if host.pvs.ReadFailed? {
        Report(Plan.INVENTORY_FRESH, false, "PersistentVolumeReadFailed", now);
        return false;
      }
      if !host.claimsRead {
        Report(Plan.INVENTORY_FRESH, false, "PersistentVolumeClaimReadFailed", now);
        return false;
      }
      if host.classes.ReadFailed? {
        Report(Plan.INVENTORY_FRESH, false, "StorageClassReadFailed", now);
        return false;
      }
      var classes := Projection.CollectClasses(host.classes.value);
      var names := ReadyNames();
      var storage;
      storage, ok := Projection.ProjectStorage(classes, host.pvs.value, nodes, names);
      status := status.(storage := storage);
      if !ok {
        Report(Plan.INVENTORY_FRESH, false, "TopoLVMPhysicalCapacityUnknown", now);
      }
    }

    /** Resets the inventory and fills in Pods and nodes. */
    method ProjectCompute(nodes: seq<Node>, pods: seq<Pod>, names: set<string>) returns (readyProfile: bool)
      modifies this`status
      ensures status == old(status).(nodes := status.nodes, inventory := status.inventory, storage := map[])
      ensures Projection.InventoryDescribed(status.inventory, nodes, pods, names, spec.profile)
      ensures Projection.NodesDescribed(status.nodes, nodes, pods, names, spec.profile)
      ensures readyProfile == Projection.SomeServes(nodes, spec.profile)
      ensures Eligible(nodes, spec.profile) == set i | 0 <= i < |status.nodes| && status.nodes[i].ready :: status.nodes[i].name
    {
      status := status.(nodes := [], inventory := map[], storage := map[]);
      var inventory, active, waiting := Projection.ProjectPods(pods, names);
      var statuses;
      inventory, statuses, readyProfile := Projection.ProjectNodes(nodes, spec.profile, inventory, active, waiting, pods, names);
      status := status.(nodes := statuses, inventory := inventory);
      EligibleAsStored(statuses, nodes, pods, names, spec.profile);
    }

    /** Stores the NodePorts, or that they are not known. */
    method ProjectServices(services: Option<Read<seq<seq<int>>>>, now: int) returns (ok: bool)
      modifies this`status
      ensures status == old(status).(nodePorts := status.nodePorts, conditions := status.conditions)
      ensures forall kind :: kind != NODE_PORTS_FRESH ==>
        Conditions.IsTrue(status.conditions, kind) == Conditions.IsTrue(old(status).conditions, kind)
      ensures ok == (services.Some? ==> services.value.Got?)
      ensures ok ==> PortsDescribed(status.nodePorts, if services.Some? then Some(services.value.value) else None)
      ensures !ok ==> !status.nodePorts.isFresh
    {
      if services.Some? && services.value.Got? {
        var ports := Projection.ProjectNodePorts(services.value.value);
        status := status.(nodePorts := ports);
        return true;
      }
      status := status.(nodePorts := NodePortStatus([], false));
      Report(NODE_PORTS_FRESH, false, if services.Some? then "ServiceReadFailed" else "HostServiceReaderUnavailable", now);
      ok := services.None?;
    }

    method ProjectInventory(host: HostReads, names: set<string>, now: int) returns (ok: bool)
      requires host.nodes.Got? && (host.pods.Some? ==> host.pods.value.Got?)
      modifies this`status
      ensures OnlyInventory(old(status), status)
      ensures ok <==> CanProject(host, spec.profile, names)
      ensures ok ==> Projected(status, ListsOf(host, spec.profile, names))
      ensures Conditions.IsTrue(status.conditions, Plan.INVENTORY_FRESH)
        == FreshAfter(Conditions.IsTrue(old(status).conditions, Plan.INVENTORY_FRESH), Reader(host), spec.profile, names)
    {
      var readyProfile := ProjectCompute(host.nodes.value, PodsOf(host.pods), names);
      if !readyProfile {
        Report(ACCELERATOR_READY, false, "NoReadyProfileNode", now);
        return false;
      }
      if host.storage.None? {
        Report(Plan.INVENTORY_FRESH, false, "HostStorageReaderUnavailable", now);
        return false;
      }
      var stored := ProjectStorageInventory(host.storage.value, host.nodes.value, Eligible(host.nodes.value, spec.profile), now);
      if !stored {
        return false;
      }
      var ported := ProjectServices(host.services, now);
      if !ported {
        return false;
      }
      Report(Plan.INVENTORY_FRESH, true, "HostInventoryObserved", now);
      Report(ACCELERATOR_READY, true, "HostResourcesObserved", now);
      ok := true;
    }

    /** Reads the host through whatever reader there is. */
    method ObserveInventory(reader: Reader, names: set<string>, now: int) returns (ok: bool)
      modifies this`status
      ensures OnlyInventory(old(status), status)
      ensures ok <==> reader.Reader? && CanProject(reader.host, spec.profile, names)
      ensures ok ==> Projected(status, ListsOf(reader.host, spec.profile, names))
      ensures Conditions.IsTrue(status.conditions, Plan.INVENTORY_FRESH)
        == FreshAfter(Conditions.IsTrue(old(status).conditions, Plan.INVENTORY_FRESH), reader, spec.profile, names)
    {
      if !reader.Reader? {
        Report(Plan.INVENTORY_FRESH, false, "HostReaderUnavailable", now);
        return false;
      }
      if reader.host.nodes.ReadFailed? || (reader.host.pods.Some? && reader.host.pods.value.ReadFailed?) {
        Report(Plan.INVENTORY_FRESH, false, "HostReadFailed", now);
        return false;
      }
      ok := ProjectInventory(reader.host, names, now);
    }

    /** Sets the phase and the conditions of the managed cluster. */
    method Conclude(round: Round, inventoryReady: bool)
      requires round.managedCluster.Some?
      requires round.lease.LeaseUnreadable? || (round.managedCluster.value.1 && !round.lease.LeaseFresh?) ==> !Conditions.IsTrue(status.conditions, AVAILABLE)
      modifies this`status
      ensures status == old(status).(phase := status.phase, conditions := status.conditions)
      ensures status.phase == if round.Joined() && round.Available() && round.Provider().Ready() && inventoryReady then CellReady else CellDegraded
      ensures Conditions.IsTrue(status.conditions, JOINED) == round.Joined() && Conditions.IsTrue(status.conditions, AVAILABLE) == round.Available()
      ensures forall kind :: kind != JOINED && kind != AVAILABLE ==>
        Conditions.IsTrue(status.conditions, kind) == Conditions.IsTrue(old(status).conditions, kind)
    {
      if round.Joined() && round.Available() && round.Provider().Ready() && inventoryReady {
        status := status.(phase := CellReady);
        Report(JOINED, true, "ManagedClusterJoined", round.now);
        Report(AVAILABLE, true, "ManagedClusterAvailable", round.now);
      } else {
        status := status.(phase := CellDegraded);
        Report(JOINED, round.Joined(), "ManagedClusterState", round.now);
        if !round.lease.LeaseUnreadable? && (!round.managedCluster.value.1 || round.lease.LeaseFresh?) {
          Report(AVAILABLE, round.Available(), "ManagedClusterState", round.now);
        }
      }
    }

    /** One round of the reconciler, up to the status it saves. */
    method Reconcile(round: Round)
      modifies this`status
      ensures ReconcileStep(old(status), status, spec.profile, round)
    {
      if round.managedCluster.None? {
        status := status.(phase := CellDegraded, managedCluster := ManagedClusterStatus(false, false, false));
        Report(JOINED, false, "ManagedClusterNotFound", round.now);
        return;
      }
      status := status.(managedCluster := ManagedClusterStatus(round.Joined(), round.Available(), round.lease.LeaseFresh?));
      if !round.lease.LeaseFresh? && (round.lease.LeaseUnreadable? || round.managedCluster.value.1) {
        Report(AVAILABLE, false, if round.lease.LeaseUnreadable? then "ManagedClusterLeaseReadFailed" else "ManagedClusterLeaseStale", round.now);
      }
      status := status.(provider := round.Provider());
      Report(PROVIDER_READY, round.Provider().Ready(),
        if round.Provider().Ready() then "HostBaselineReady"
        else match round.baseline
             case NoBaseline => "HostReaderUnavailable"
             case BaselineFailed => "HostBaselineReadFailed"
             case Baseline(_) => "HostBaselineNotReady", round.now);
      if round.clusters.ReadFailed? {
        Report(Plan.INVENTORY_FRESH, false, "VirtualClusterListFailed", round.now);
        return;
      }
      var inventoryReady := ObserveInventory(round.reader, round.clusters.value, round.now);
      Conclude(round, inventoryReady);
    }
  }

  const INITIAL_STATUS := CellStatus(
    CellPending, [], ManagedClusterStatus(false, false, false), ProviderStatus("", false, false, false, false, false),
    [], map[], map[], NodePortStatus([], false))

  // ---- reachable statuses ------------------------------------------------------------------------

  /** The stored status and, as history, the lists of the last projection that made the Cell Ready. */
  datatype CellHistory = CellHistory(status: CellStatus, lists: Option<Lists>)

  /** One saved round, or a round of a deleted Cell that is still referenced. */
  ghost predicate HistoryStep(before: CellHistory, after: CellHistory, profile: MachineProfile, round: Round, deleting: bool) {
    if deleting then
      after == before.(status := after.status)
      && after.status == before.status.(phase := CellDeleting, conditions := after.status.conditions)
    else
      && ReconcileStep(before.status, after.status, profile, round)
      && after.lists == (if round.managedCluster.Some? && round.clusters.Got? && after.status.phase == CellReady
                         then Some(ListsOf(round.reader.host, profile, round.clusters.value)) else before.lists)
  }

  /** Phase Ready means that the stored inventory is the projection of the recorded lists. */
  ghost predicate Backed(h: CellHistory) {
    h.status.phase == CellReady ==> h.lists.Some? && Projected(h.status, h.lists.value)
  }

  lemma StepKeepsBacked(before: CellHistory, after: CellHistory, profile: MachineProfile, round: Round, deleting: bool)
    requires Backed(before) && HistoryStep(before, after, profile, round, deleting)
    ensures Backed(after)
  {
    if !deleting && (round.managedCluster.None? || round.clusters.ReadFailed?) && after.status.phase == CellReady {
      assert SameInventory(before.status, after.status);
    }
  }
}
