/** What an Accepted decision on a reachable Cell status says about the host, and that it is antitone in the Pods. */
module Feasibility {
  import opened Api
  import CellController
  import Inventory
  import Plan
  import PlanMeaning
  import Projection
  import Quantities
  import Resolution

  type Lists = CellController.Lists

  /** max(0, allocatable of the serving nodes - effective requests of the tenant Pods that run or whose phase is unknown). */
  function Headroom(lists: Lists, k: string): int {
    Max(0, Inventory.AllocatableOf(lists.nodes, lists.profile, k) - Inventory.PhaseSum(lists.pods, lists.names, {PodRunning, PodUnknown}, k))
  }

  /** What such Pods hold of a resource on one node. */
  function HeldOn(lists: Lists, node: string, k: string): int {
    if node == "" then 0 else Inventory.PhaseSumOn(lists.pods, lists.names, {PodRunning, PodUnknown}, node, k)
  }

  predicate DeviceFits(lists: Lists, resource: string, required: int) {
    exists i :: 0 <= i < |lists.nodes| && Inventory.ServesProfile(lists.nodes[i], lists.profile)
      && At(lists.nodes[i].allocatable, resource) - HeldOn(lists, lists.nodes[i].name, resource) >= required
  }

  /** Request plus reservation of each compute resource is there. */
  ghost predicate Covered(lists: Lists, hard: QuotaList) {
    && Headroom(lists, "cpu") >= Plan.Amount(hard, "requests.cpu") + 600
    && Headroom(lists, "memory") >= Plan.Amount(hard, "requests.memory") + 1342177280000
    && Headroom(lists, "ephemeral-storage") >= Plan.Amount(hard, "requests.ephemeral-storage")
  }

  /** Every requested device of the profile fits on one node. */
  ghost predicate DevicesFit(lists: Lists, devices: seq<Device>, hard: QuotaList) {
    forall r: string :: Resolution.Declares(devices, r) && Plan.Amount(hard, "requests." + r) > 0 ==>
      DeviceFits(lists, r, Plan.Amount(hard, "requests." + r))
  }

  /** Amounts are not negative, as the API server ensures. */
  ghost predicate NonNegative(pods: seq<Pod>) {
    forall i, k :: 0 <= i < |pods| ==> Quantities.Effective(pods[i], k) >= 0
  }

  ghost predicate PortFree(lists: Lists) {
    lists.services.Some? && exists p :: Plan.InRange(p) && !Projection.PortListed(lists.services.value, p)
  }

  lemma CapacityIsCovered(status: CellStatus, lists: Lists, k: string, required: int)
    requires Projection.InventoryDescribed(status.inventory, lists.nodes, lists.pods, lists.names, lists.profile)
    requires Plan.CapacityStatus(InventoryAt(status.inventory, k), required) == Plan.Passed
    ensures Headroom(lists, k) >= required
  {
    assert InventoryAt(status.inventory, k) == Inventory.EntryOf(lists.nodes, lists.pods, lists.names, lists.profile, k);
    Inventory.RequestsByPhase(lists.pods, lists.names, k);
  }

  lemma StoredNodeIsListed(stored: seq<NodeStatus>, i: nat, nodes: seq<Node>, pods: seq<Pod>, names: set<string>, profile: MachineProfile)
    returns (j: nat)
    requires i < |stored| && Projection.NodesDescribed(stored, nodes, pods, names, profile)
    ensures j < |nodes| && Projection.NodeDescribed(stored[i], nodes[j], pods, names, profile)
  {
    var listed: seq<NodeStatus> :| Projection.AllDescribed(listed, nodes, pods, names, profile) && multiset(stored) == multiset(listed);
    assert stored[i] in multiset(listed);
    j :| 0 <= j < |listed| && listed[j] == stored[i];
  }

  lemma ListedNodeIsStored(stored: seq<NodeStatus>, j: nat, nodes: seq<Node>, pods: seq<Pod>, names: set<string>, profile: MachineProfile)
    returns (i: nat)
    requires j < |nodes| && Projection.NodesDescribed(stored, nodes, pods, names, profile)
    ensures i < |stored| && Projection.NodeDescribed(stored[i], nodes[j], pods, names, profile)
  {
    var listed: seq<NodeStatus> :| Projection.AllDescribed(listed, nodes, pods, names, profile) && multiset(stored) == multiset(listed);
    assert listed[j] in multiset(stored);
    i :| 0 <= i < |stored| && stored[i] == listed[j];
  }

  /** The stored amount of a device is the listed one: the device is observed because it is declared, or else because more
      of it is left than nothing. */
  lemma DeviceIsCovered(status: CellStatus, lists: Lists, profile: string, resource: string, required: int)
    requires Projection.NodesDescribed(status.nodes, lists.nodes, lists.pods, lists.names, lists.profile)
    requires Plan.FitsLocally(status.nodes, profile, resource, required)
    requires Resolution.Declares(lists.profile.devices, resource) || (NonNegative(lists.pods) && required > 0)
    ensures DeviceFits(lists, resource, required)
  {
    var i :| 0 <= i < |status.nodes| && Plan.Serves(status.nodes[i], profile)
      && At(status.nodes[i].allocatable, resource) - At(status.nodes[i].active, resource) >= required;
    var j := StoredNodeIsListed(status.nodes, i, lists.nodes, lists.pods, lists.names, lists.profile);
    if !Resolution.Declares(lists.profile.devices, resource) {
      RequestsShrink([], lists.pods, lists.names, lists.nodes[j].name, resource);
    }
    assert At(status.nodes[i].allocatable, resource) == At(lists.nodes[j].allocatable, resource);
    Inventory.RequestsOnByPhase(lists.pods, lists.names, lists.nodes[j].name, resource);
    assert At(lists.nodes[j].allocatable, resource) - HeldOn(lists, lists.nodes[j].name, resource) >= required;
  }

  lemma PortIsFree(status: CellStatus, lists: Lists)
    requires CellController.PortsDescribed(status.nodePorts, lists.services)
    requires Plan.NodePortCheckStatus(status.nodePorts) == Plan.Passed
    ensures PortFree(lists)
  {
    Plan.NodePortPassesIffFree(status.nodePorts);
    var p :| Plan.InRange(p) && p !in status.nodePorts.ports;
    assert !Projection.PortListed(lists.services.value, p);
  }

  lemma ComputeIsCovered(status: CellStatus, lists: Lists, hard: QuotaList)
    requires Projection.InventoryDescribed(status.inventory, lists.nodes, lists.pods, lists.names, lists.profile)
    requires Plan.CapacityStatus(InventoryAt(status.inventory, CPU), Plan.Required(hard, CPU)) == Plan.Passed
    requires Plan.CapacityStatus(InventoryAt(status.inventory, MEMORY), Plan.Required(hard, MEMORY)) == Plan.Passed
    requires Plan.CapacityStatus(InventoryAt(status.inventory, EPHEMERAL), Plan.Required(hard, EPHEMERAL)) == Plan.Passed
    ensures Covered(lists, hard)
  {
    CapacityIsCovered(status, lists, CPU, Plan.Required(hard, CPU));
    CapacityIsCovered(status, lists, MEMORY, Plan.Required(hard, MEMORY));
    CapacityIsCovered(status, lists, EPHEMERAL, Plan.Required(hard, EPHEMERAL));
    Plan.RequiredAmounts(hard);
  }

  lemma DevicesAreCovered(cell: CellSpec, status: CellStatus, lists: Lists, hard: QuotaList)
    requires Projection.NodesDescribed(status.nodes, lists.nodes, lists.pods, lists.names, lists.profile)
    requires Plan.AcceleratorStatus(status.nodes, cell.profile.name, Plan.DeviceRequests(cell.profile.devices, hard)) == Plan.Passed
    requires lists.profile == cell.profile || NonNegative(lists.pods)
    ensures DevicesFit(lists, cell.profile.devices, hard)
  {
    forall r: string | Resolution.Declares(cell.profile.devices, r) && Plan.Amount(hard, "requests." + r) > 0
      ensures DeviceFits(lists, r, Plan.Amount(hard, "requests." + r))
    {
      DeviceIsRequested(cell, hard, r);
      DeviceIsCovered(status, lists, cell.profile.name, r, Plan.Requested(hard, r));
    }
  }

  /** Soundness of Accepted over reachable Cell statuses: the lists that produced the stored inventory cover request plus
      reservation of every compute resource, one serving node has each requested device left, and a NodePort is free.
      The profile may have been edited since the projection; then Pod amounts must not be negative. */
  lemma AcceptedIsSound(cell: CellSpec, h: CellController.CellHistory, class_: ClassSpec)
    requires CellController.Backed(h) && Plan.Evaluate(cell, h.status, class_) == Plan.Accepted
    ensures h.lists.Some?
    ensures Covered(h.lists.value, class_.workloadHard)
    ensures h.lists.value.profile == cell.profile || NonNegative(h.lists.value.pods) ==> DevicesFit(h.lists.value, cell.profile.devices, class_.workloadHard)
    ensures PortFree(h.lists.value)
  {
    Plan.AcceptedIff(cell, h.status, class_);
    Plan.ResourcesPassedIff(cell, h.status, class_);
    assert h.status.phase == CellReady by {
      assert Plan.ReadinessChecks(cell, h.status, class_)[1].status == Plan.Passed;
    }
    var lists, hard := h.lists.value, class_.workloadHard;
    ComputeIsCovered(h.status, lists, hard);
    if lists.profile == cell.profile || NonNegative(lists.pods) {
      DevicesAreCovered(cell, h.status, lists, hard);
    }
    PortIsFree(h.status, lists);
  }

  /** The serving nodes have some of the resource to allocate, and less than the amount is left of it. */
  predicate Exhausted(lists: Lists, k: string, amount: int) {
    Inventory.AllocatableOf(lists.nodes, lists.profile, k) != 0 && Headroom(lists, k) < amount
  }

  /** The other half, on the lists: where too little is left of one compute resource, the plan is rejected. */
  lemma FullCellIsRejected(cell: CellSpec, h: CellController.CellHistory, class_: ClassSpec)
    requires CellController.Backed(h) && h.status.phase == CellReady
    requires var lists, hard := h.lists.value, class_.workloadHard;
      || Exhausted(lists, "cpu", Plan.Amount(hard, "requests.cpu") + 600)
      || Exhausted(lists, "memory", Plan.Amount(hard, "requests.memory") + 1342177280000)
      || Exhausted(lists, "ephemeral-storage", Plan.Amount(hard, "requests.ephemeral-storage"))
    ensures Plan.Evaluate(cell, h.status, class_) == Plan.Rejected
  {
    var lists, hard := h.lists.value, class_.workloadHard;
    ExhaustedIsShort(h.status, lists, "cpu", Plan.Amount(hard, "requests.cpu") + 600);
    ExhaustedIsShort(h.status, lists, "memory", Plan.Amount(hard, "requests.memory") + 1342177280000);
    ExhaustedIsShort(h.status, lists, "ephemeral-storage", Plan.Amount(hard, "requests.ephemeral-storage"));
    PlanMeaning.RejectedExactly(cell, h.status, class_);
  }

  lemma ExhaustedIsShort(status: CellStatus, lists: Lists, k: string, amount: int)
    requires Projection.InventoryDescribed(status.inventory, lists.nodes, lists.pods, lists.names, lists.profile)
    ensures Exhausted(lists, k, amount) ==> PlanMeaning.Short(status, k, amount)
  {
    if Exhausted(lists, k, amount) {
      EntryIsHeadroom(status, lists, k);
    }
  }

  lemma EntryIsHeadroom(status: CellStatus, lists: Lists, k: string)
    requires Projection.InventoryDescribed(status.inventory, lists.nodes, lists.pods, lists.names, lists.profile)
    requires Inventory.AllocatableOf(lists.nodes, lists.profile, k) != 0
    ensures InventoryAt(status.inventory, k).available == Headroom(lists, k)
    ensures InventoryAt(status.inventory, k).allocatable == Inventory.AllocatableOf(lists.nodes, lists.profile, k)
  {
    assert InventoryAt(status.inventory, k) == Inventory.EntryOf(lists.nodes, lists.pods, lists.names, lists.profile, k);
    Inventory.RequestsByPhase(lists.pods, lists.names, k);
    SomethingIsOffered(lists.nodes, lists.profile, k);
  }

  lemma {:induction false} SomethingIsOffered(nodes: seq<Node>, profile: MachineProfile, k: string)
    requires Inventory.AllocatableOf(nodes, profile, k) != 0
    ensures Inventory.Offered(nodes, profile, k)
  {
    var init, last := nodes[..|nodes| - 1], nodes[|nodes| - 1];
    if Inventory.Contributes(last, profile, k) {
      assert Inventory.Contributes(nodes[|nodes| - 1], profile, k);
    } else {
      SomethingIsOffered(init, profile, k);
      var i :| 0 <= i < |init| && Inventory.Contributes(init[i], profile, k);
      assert nodes[i] == init[i];
    }
  }

  lemma DeviceIsRequested(cell: CellSpec, hard: QuotaList, r: string)
    requires Resolution.Declares(cell.profile.devices, r)
    ensures r in Plan.DeviceRequests(cell.profile.devices, hard)
    ensures Plan.DeviceRequests(cell.profile.devices, hard)[r] == Plan.Requested(hard, r)
  {
    var i :| 0 <= i < |cell.profile.devices| && cell.profile.devices[i].resourceName == r;
    assert Resolution.DeviceResources(cell.profile.devices)[i] == r;
  }

  // ---- fewer Pods ----------------------------------------------------------------------------------

  /** small is big with some Pods removed. */
  predicate SubPods(small: seq<Pod>, big: seq<Pod>) {
    small == [] || (big != [] && (
      (small[|small| - 1] == big[|big| - 1] && SubPods(small[..|small| - 1], big[..|big| - 1]))
      || SubPods(small, big[..|big| - 1])))
  }

  lemma {:induction false} RequestsShrink(small: seq<Pod>, big: seq<Pod>, names: set<string>, node: string, k: string)
    requires SubPods(small, big) && NonNegative(big)
    ensures 0 <= Inventory.Requests(small, names, false, k) <= Inventory.Requests(big, names, false, k)
    ensures 0 <= Inventory.RequestsOn(small, names, false, node, k) <= Inventory.RequestsOn(big, names, false, node, k)
    decreases |big|
  {
    if big != [] {
      var init, last := big[..|big| - 1], big[|big| - 1];
      assert forall i :: 0 <= i < |init| ==> init[i] == big[i];
      assert Quantities.Effective(last, k) >= 0;
      if small == [] {
        RequestsShrink([], init, names, node, k);
      } else if small[|small| - 1] == last && SubPods(small[..|small| - 1], init) {
        RequestsShrink(small[..|small| - 1], init, names, node, k);
      } else {
        RequestsShrink(small, init, names, node, k);
      }
    }
  }

  lemma CapacityStillCovers(status: CellStatus, lists: Lists, status': CellStatus, pods': seq<Pod>, k: string, required: int)
    requires Projection.InventoryDescribed(status.inventory, lists.nodes, lists.pods, lists.names, lists.profile)
    requires Projection.InventoryDescribed(status'.inventory, lists.nodes, pods', lists.names, lists.profile)
    requires SubPods(pods', lists.pods) && NonNegative(lists.pods)
    requires Plan.CapacityStatus(InventoryAt(status.inventory, k), required) == Plan.Passed
    ensures Plan.CapacityStatus(InventoryAt(status'.inventory, k), required) == Plan.Passed
  {
    RequestsShrink(pods', lists.pods, lists.names, "", k);
    assert InventoryAt(status.inventory, k) == Inventory.EntryOf(lists.nodes, lists.pods, lists.names, lists.profile, k);
    assert InventoryAt(status'.inventory, k) == Inventory.EntryOf(lists.nodes, pods', lists.names, lists.profile, k);
  }

  lemma DeviceStillFits(status: CellStatus, lists: Lists, status': CellStatus, pods': seq<Pod>, profile: string, resource: string, required: int)
    requires Projection.NodesDescribed(status.nodes, lists.nodes, lists.pods, lists.names, lists.profile)
    requires Projection.NodesDescribed(status'.nodes, lists.nodes, pods', lists.names, lists.profile)
    requires SubPods(pods', lists.pods) && NonNegative(lists.pods)
    requires Plan.FitsLocally(status.nodes, profile, resource, required)
    ensures Plan.FitsLocally(status'.nodes, profile, resource, required)
  {
    var i :| 0 <= i < |status.nodes| && Plan.Serves(status.nodes[i], profile)
      && At(status.nodes[i].allocatable, resource) - At(status.nodes[i].active, resource) >= required;
    var j := StoredNodeIsListed(status.nodes, i, lists.nodes, lists.pods, lists.names, lists.profile);
    var m := ListedNodeIsStored(status'.nodes, j, lists.nodes, pods', lists.names, lists.profile);
    RequestsShrink(pods', lists.pods, lists.names, lists.nodes[j].name, resource);
    assert At(status'.nodes[m].active, resource) <= At(status.nodes[i].active, resource);
    assert Plan.Serves(status'.nodes[m], profile);
  }

  lemma AcceleratorsStillPass(status: CellStatus, lists: Lists, status': CellStatus, pods': seq<Pod>, profile: string, requests: ResourceList)
    requires Projection.NodesDescribed(status.nodes, lists.nodes, lists.pods, lists.names, lists.profile)
    requires Projection.NodesDescribed(status'.nodes, lists.nodes, pods', lists.names, lists.profile)
    requires SubPods(pods', lists.pods) && NonNegative(lists.pods)
    requires Plan.AcceleratorStatus(status.nodes, profile, requests) == Plan.Passed
    ensures Plan.AcceleratorStatus(status'.nodes, profile, requests) == Plan.Passed
  {
    forall r | r in requests && requests[r] != 0 ensures Plan.FitsLocally(status'.nodes, profile, r, requests[r]) {
      DeviceStillFits(status, lists, status', pods', profile, r, requests[r]);
    }
  }

  lemma PortsAgree(a: NodePortStatus, b: NodePortStatus, services: Option<seq<seq<int>>>)
    requires CellController.PortsDescribed(a, services) && CellController.PortsDescribed(b, services)
    ensures Plan.NodePortCheckStatus(a) == Plan.NodePortCheckStatus(b)
  {
    if services.Some? {
      assert Plan.PortsInRange(a.ports) == Plan.PortsInRange(b.ports);
    }
  }

  lemma ResourcesStillPass(cell: CellSpec, class_: ClassSpec, status: CellStatus, lists: Lists, status': CellStatus, pods': seq<Pod>)
    requires Projection.InventoryDescribed(status.inventory, lists.nodes, lists.pods, lists.names, lists.profile)
    requires Projection.InventoryDescribed(status'.inventory, lists.nodes, pods', lists.names, lists.profile)
    requires Projection.NodesDescribed(status.nodes, lists.nodes, lists.pods, lists.names, lists.profile)
    requires Projection.NodesDescribed(status'.nodes, lists.nodes, pods', lists.names, lists.profile)
    requires SubPods(pods', lists.pods) && NonNegative(lists.pods)
    requires status.storage == status'.storage
    requires Plan.NodePortCheckStatus(status.nodePorts) == Plan.NodePortCheckStatus(status'.nodePorts)
    requires Plan.AllPassed(Plan.ResourceChecks(cell, status, class_))
    ensures Plan.AllPassed(Plan.ResourceChecks(cell, status', class_))
  {
    Plan.ResourcesPassedIff(cell, status, class_);
    Plan.ResourcesPassedIff(cell, status', class_);
    var hard := class_.workloadHard;
    CapacityStillCovers(status, lists, status', pods', CPU, Plan.Required(hard, CPU));
    CapacityStillCovers(status, lists, status', pods', MEMORY, Plan.Required(hard, MEMORY));
    CapacityStillCovers(status, lists, status', pods', EPHEMERAL, Plan.Required(hard, EPHEMERAL));
    AcceleratorsStillPass(status, lists, status', pods', cell.profile.name, Plan.DeviceRequests(cell.profile.devices, hard));
  }

  /** Removing tenant Pods never takes an acceptance away. */
  lemma FewerPodsStayAccepted(cell: CellSpec, class_: ClassSpec, status: CellStatus, lists: Lists, status': CellStatus, lists': Lists)
    requires CellController.Projected(status, lists) && CellController.Projected(status', lists')
    requires lists' == lists.(pods := lists'.pods) && SubPods(lists'.pods, lists.pods) && NonNegative(lists.pods)
    requires status'.phase == status.phase && status'.conditions == status.conditions
      && status'.managedCluster == status.managedCluster && status'.provider == status.provider
    requires Plan.Evaluate(cell, status, class_) == Plan.Accepted
    ensures Plan.Evaluate(cell, status', class_) == Plan.Accepted
  {
    Plan.AcceptedIff(cell, status, class_);
    Plan.AcceptedIff(cell, status', class_);
    PortsAgree(status.nodePorts, status'.nodePorts, lists.services);
    ResourcesStillPass(cell, class_, status, lists, status', lists'.pods);
    assert Plan.ReadinessChecks(cell, status', class_) == Plan.ReadinessChecks(cell, status, class_);
  }
}
