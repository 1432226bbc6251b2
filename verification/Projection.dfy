/** The loops by which the Cell reconciler turns host lists into the stored inventory
    (internal/controller/cell_controller.go, projectInventory and its helpers). */
module Projection {
  import opened Api
  import opened Sums
  import Inventory
  import Quantities
  import Sorting
  import Storage

  type NodeRequests = map<string, ResourceList>

  function ListAt(m: NodeRequests, node: string): ResourceList {
    if node in m then m[node] else map[]
  }

  // ---- pods ------------------------------------------------------------------------------------

  /** target[node][name] += values[name]. */
  method AddToNode(target: NodeRequests, node: string, values: ResourceList) returns (r: NodeRequests)
    ensures r.Keys == target.Keys + {node}
    ensures forall n :: n != node ==> ListAt(r, n) == ListAt(target, n)
    ensures forall k :: At(ListAt(r, node), k) == At(ListAt(target, node), k) + At(values, k)
  {
    var sum := Quantities.AddResourceList(ListAt(target, node), values);
    r := target[node := sum];
  }

  /** Adds a Pod's requests to the Pending or the Requested column. */
  method AddToInventory(inventory: map<string, InventoryStatus>, pending: bool, requests: ResourceList)
    returns (r: map<string, InventoryStatus>)
    ensures forall k :: InventoryAt(r, k) == Grown(InventoryAt(inventory, k), pending, At(requests, k))
  {
    r := inventory;
    var left := requests.Keys;
    while left != {}
      invariant left <= requests.Keys
      invariant forall k :: k in requests && k !in left ==> InventoryAt(r, k) == Grown(InventoryAt(inventory, k), pending, requests[k])
      invariant forall k :: k !in requests || k in left ==> InventoryAt(r, k) == InventoryAt(inventory, k)
      decreases |left|
    {
      var k :| k in left;
      left := left - {k};
      r := r[k := Grown(InventoryAt(r, k), pending, requests[k])];
    }
  }

  function Grown(entry: InventoryStatus, pending: bool, amount: int): InventoryStatus {
    if pending then entry.(pending := entry.pending + amount) else entry.(requested := entry.requested + amount)
  }

  /** Every counted Pod that has a node is in that node's sum. */
  ghost predicate SumsByNode(byNode: NodeRequests, pods: seq<Pod>, names: set<string>, pending: bool) {
    && "" !in byNode
    && (forall i :: 0 <= i < |pods| && Inventory.Counts(pods[i], names, pending) && pods[i].nodeName != "" ==> pods[i].nodeName in byNode)
    && (forall n, k :: n != "" ==> At(ListAt(byNode, n), k) == Inventory.RequestsOn(pods, names, pending, n, k))
  }

  ghost predicate ColumnsOf(inventory: map<string, InventoryStatus>, pods: seq<Pod>, names: set<string>) {
    forall k :: InventoryAt(inventory, k) ==
                InventoryStatus(0, 0, Inventory.Requests(pods, names, false, k), Inventory.Requests(pods, names, true, k), 0)
  }

  lemma SumsUnchanged(byNode: NodeRequests, pods: seq<Pod>, i: nat, names: set<string>, pending: bool)
    requires i < |pods| && SumsByNode(byNode, pods[..i], names, pending)
    requires !Inventory.Counts(pods[i], names, pending) || pods[i].nodeName == ""
    ensures SumsByNode(byNode, pods[..i + 1], names, pending)
  {
    assert pods[..i + 1][..i] == pods[..i];
  }

  lemma SumsAdded(byNode: NodeRequests, after: NodeRequests, pods: seq<Pod>, i: nat, names: set<string>, pending: bool)
    requires i < |pods| && SumsByNode(byNode, pods[..i], names, pending)
    requires Inventory.Counts(pods[i], names, pending) && pods[i].nodeName != ""
    requires after.Keys == byNode.Keys + {pods[i].nodeName}
    requires forall n :: n != pods[i].nodeName ==> ListAt(after, n) == ListAt(byNode, n)
    requires forall k :: At(ListAt(after, pods[i].nodeName), k) ==
                         At(ListAt(byNode, pods[i].nodeName), k) + Quantities.Effective(pods[i], k)
    ensures SumsByNode(after, pods[..i + 1], names, pending)
  {
    assert pods[..i + 1][..i] == pods[..i];
  }

  lemma ColumnsGrow(before: map<string, InventoryStatus>, after: map<string, InventoryStatus>, pods: seq<Pod>, i: nat, names: set<string>)
    requires i < |pods| && ColumnsOf(before, pods[..i], names)
    requires forall k ::
      InventoryAt(after, k) ==
      if Inventory.Counts(pods[i], names, true) then Grown(InventoryAt(before, k), true, Quantities.Effective(pods[i], k))
      else if Inventory.Counts(pods[i], names, false) then Grown(InventoryAt(before, k), false, Quantities.Effective(pods[i], k))
      else InventoryAt(before, k)
    ensures ColumnsOf(after, pods[..i + 1], names)
  {
    assert pods[..i + 1][..i] == pods[..i];
  }

  method ProjectPods(pods: seq<Pod>, names: set<string>)
    returns (inventory: map<string, InventoryStatus>, active: NodeRequests, waiting: NodeRequests)
    ensures ColumnsOf(inventory, pods, names)
    ensures SumsByNode(active, pods, names, false) && SumsByNode(waiting, pods, names, true)
    ensures ByPhase(inventory, active, waiting, pods, names)
  {
    inventory, active, waiting := map[], map[], map[];
    for i := 0 to |pods|
      invariant ColumnsOf(inventory, pods[..i], names)
      invariant SumsByNode(active, pods[..i], names, false) && SumsByNode(waiting, pods[..i], names, true)
    {
      inventory, active, waiting := ProjectPod(pods, i, names, inventory, active, waiting);
    }
    assert pods[..|pods|] == pods;
    SumsAreByPhase(inventory, active, waiting, pods, names);
  }

  /** The columns and node maps by phase: Running and Unknown Pods are requested, Pending ones pending, and nothing else counts. */
  ghost predicate ByPhase(inventory: map<string, InventoryStatus>, active: NodeRequests, waiting: NodeRequests, pods: seq<Pod>, names: set<string>) {
    && (forall k ::
      var entry := InventoryAt(inventory, k);
      && entry.requested == Inventory.PhaseSum(pods, names, {PodRunning, PodUnknown}, k)
      && entry.pending == Inventory.PhaseSum(pods, names, {PodPending}, k)
      && entry.requested + entry.pending == Inventory.PhaseSum(pods, names, {PodPending, PodRunning, PodUnknown}, k))
    && (forall n, k :: n != "" ==> At(ListAt(active, n), k) == Inventory.PhaseSumOn(pods, names, {PodRunning, PodUnknown}, n, k))
    && (forall n, k :: n != "" ==> At(ListAt(waiting, n), k) == Inventory.PhaseSumOn(pods, names, {PodPending}, n, k))
  }

  lemma SumsAreByPhase(inventory: map<string, InventoryStatus>, active: NodeRequests, waiting: NodeRequests, pods: seq<Pod>, names: set<string>)
    requires ColumnsOf(inventory, pods, names) && SumsByNode(active, pods, names, false) && SumsByNode(waiting, pods, names, true)
    ensures ByPhase(inventory, active, waiting, pods, names)
  {
    forall k
      ensures InventoryAt(inventory, k).requested == Inventory.PhaseSum(pods, names, {PodRunning, PodUnknown}, k)
      ensures InventoryAt(inventory, k).pending == Inventory.PhaseSum(pods, names, {PodPending}, k)
      ensures InventoryAt(inventory, k).requested + InventoryAt(inventory, k).pending
        == Inventory.PhaseSum(pods, names, {PodPending, PodRunning, PodUnknown}, k)
    {
      Inventory.RequestsByPhase(pods, names, k);
    }
    forall n, k | n != ""
      ensures At(ListAt(active, n), k) == Inventory.PhaseSumOn(pods, names, {PodRunning, PodUnknown}, n, k)
      ensures At(ListAt(waiting, n), k) == Inventory.PhaseSumOn(pods, names, {PodPending}, n, k)
    {
      Inventory.RequestsOnByPhase(pods, names, n, k);
    }
  }

  method ProjectPod(pods: seq<Pod>, i: nat, names: set<string>, inventory0: map<string, InventoryStatus>, active0: NodeRequests, waiting0: NodeRequests)
    returns (inventory: map<string, InventoryStatus>, active: NodeRequests, waiting: NodeRequests)
    requires i < |pods| && ColumnsOf(inventory0, pods[..i], names)
    requires SumsByNode(active0, pods[..i], names, false) && SumsByNode(waiting0, pods[..i], names, true)
    ensures ColumnsOf(inventory, pods[..i + 1], names)
    ensures SumsByNode(active, pods[..i + 1], names, false) && SumsByNode(waiting, pods[..i + 1], names, true)
  {
    inventory, active, waiting := inventory0, active0, waiting0;
    var pod := pods[i];
    if pod.cluster !in names || pod.phase == PodSucceeded || pod.phase == PodFailed {
      SumsUnchanged(active, pods, i, names, false);
      SumsUnchanged(waiting, pods, i, names, true);
      ColumnsGrow(inventory, inventory, pods, i, names);
      return;
    }
    var requests := Quantities.EffectivePodRequests(pod);
    if pod.phase == PodPending {
      if pod.nodeName != "" {
        waiting := AddToNode(waiting0, pod.nodeName, requests);
        SumsAdded(waiting0, waiting, pods, i, names, true);
      } else {
        SumsUnchanged(waiting, pods, i, names, true);
      }
      SumsUnchanged(active, pods, i, names, false);
      inventory := AddToInventory(inventory0, true, requests);
    } else {
      if pod.nodeName != "" {
        active := AddToNode(active0, pod.nodeName, requests);
        SumsAdded(active0, active, pods, i, names, false);
      } else {
        SumsUnchanged(active, pods, i, names, false);
      }
      SumsUnchanged(waiting, pods, i, names, true);
      inventory := AddToInventory(inventory0, false, requests);
    }
    ColumnsGrow(inventory0, inventory, pods, i, names);
  }

  /** Conservation in the stored form: Requested is the sum of the per-node maps plus the Pods without a node. */
  lemma NodeMapsConserve(byNode: NodeRequests, pods: seq<Pod>, names: set<string>, pending: bool, k: string)
    requires SumsByNode(byNode, pods, names, pending)
    ensures Inventory.Requests(pods, names, pending, k) ==
      SetSum(byNode.Keys, n => At(ListAt(byNode, n), k)) + Inventory.RequestsOn(pods, names, pending, "", k)
  {
    Inventory.RequestsAreConserved(pods, names, pending, byNode.Keys, k);
    SetSumEqual(byNode.Keys, n => At(ListAt(byNode, n), k), n => Inventory.RequestsOn(pods, names, pending, n, k));
  }

  // ---- nodes -----------------------------------------------------------------------------------

  function Counted(entry: InventoryStatus, capacity: int, allocatable: int): InventoryStatus {
    var total := entry.allocatable + allocatable;
    entry.(capacity := entry.capacity + capacity, allocatable := total, available := Max(0, total - entry.requested))
  }

  /** Adds one ready node, key by key, flooring the estimate again at every addition. */
  method CountNode(inventory: map<string, InventoryStatus>, status: NodeStatus) returns (r: map<string, InventoryStatus>)
    ensures forall k :: k in status.capacity ==>
              InventoryAt(r, k) == Counted(InventoryAt(inventory, k), status.capacity[k], At(status.allocatable, k))
    ensures forall k :: k !in status.capacity ==> InventoryAt(r, k) == InventoryAt(inventory, k)
  {
    r := inventory;
    var left := status.capacity.Keys;
    while left != {}
      invariant left <= status.capacity.Keys
      invariant forall k :: k in status.capacity && k !in left ==>
        InventoryAt(r, k) == Counted(InventoryAt(inventory, k), status.capacity[k], At(status.allocatable, k))
      invariant forall k :: k !in status.capacity || k in left ==> InventoryAt(r, k) == InventoryAt(inventory, k)
      decreases |left|
    {
      var k :| k in left;
      left := left - {k};
      var entry := InventoryAt(r, k);
      var allocatable := entry.allocatable + At(status.allocatable, k);
      var available := allocatable - entry.requested;
      r := r[k := entry.(capacity := entry.capacity + status.capacity[k], allocatable := allocatable,
                         available := if available < 0 then 0 else available)];
    }
  }

  /** What the stored status says about one listed node. */
  ghost predicate NodeDescribed(s: NodeStatus, node: Node, pods: seq<Pod>, names: set<string>, profile: MachineProfile) {
    if node.profileLabel != profile.name then s == NodeStatus(node.name, "", false, map[], map[], map[], map[])
    else
      && s.name == node.name && s.profile == profile.name && s.ready == Inventory.ServesProfile(node, profile)
      && s.capacity == Inventory.Observed(node.capacity, profile.devices)
      && s.allocatable == Inventory.Observed(node.allocatable, profile.devices)
      && (forall k :: At(s.active, k) == Inventory.BookedOn(pods, names, false, node.name, k))
      && (forall k :: At(s.pending, k) == Inventory.BookedOn(pods, names, true, node.name, k))
  }

  ghost predicate AllDescribed(listed: seq<NodeStatus>, nodes: seq<Node>, pods: seq<Pod>, names: set<string>, profile: MachineProfile) {
    |listed| == |nodes| && forall i :: 0 <= i < |nodes| ==> NodeDescribed(listed[i], nodes[i], pods, names, profile)
  }

  /** Every listed node is described exactly once. */
  ghost predicate NodesDescribed(stored: seq<NodeStatus>, nodes: seq<Node>, pods: seq<Pod>, names: set<string>, profile: MachineProfile) {
    exists listed :: AllDescribed(listed, nodes, pods, names, profile) && multiset(stored) == multiset(listed)
  }

  ghost predicate InventoryDescribed(inventory: map<string, InventoryStatus>, nodes: seq<Node>, pods: seq<Pod>, names: set<string>, profile: MachineProfile) {
    forall k :: InventoryAt(inventory, k) == Inventory.EntryOf(nodes, pods, names, profile, k)
  }

  lemma EntryGrows(nodes: seq<Node>, i: nat, pods: seq<Pod>, names: set<string>, profile: MachineProfile, k: string)
    requires i < |nodes|
    ensures Inventory.EntryOf(nodes[..i + 1], pods, names, profile, k) ==
      if Inventory.Contributes(nodes[i], profile, k)
      then Counted(Inventory.EntryOf(nodes[..i], pods, names, profile, k), nodes[i].capacity[k], At(nodes[i].allocatable, k))
      else Inventory.EntryOf(nodes[..i], pods, names, profile, k)
  {
    var longer, shorter := nodes[..i + 1], nodes[..i];
    assert longer[..i] == shorter && longer[i] == nodes[i];
    assert forall j :: 0 <= j < i ==> longer[j] == shorter[j];
  }

  lemma DescriptionGrows(before: map<string, InventoryStatus>, after: map<string, InventoryStatus>, nodes: seq<Node>, i: nat,
                         pods: seq<Pod>, names: set<string>, profile: MachineProfile)
    requires i < |nodes| && InventoryDescribed(before, nodes[..i], pods, names, profile)
    requires forall k :: Inventory.Contributes(nodes[i], profile, k) ==>
      InventoryAt(after, k) == Counted(InventoryAt(before, k), nodes[i].capacity[k], At(nodes[i].allocatable, k))
    requires forall k :: !Inventory.Contributes(nodes[i], profile, k) ==> InventoryAt(after, k) == InventoryAt(before, k)
    ensures InventoryDescribed(after, nodes[..i + 1], pods, names, profile)
  {
    forall k ensures InventoryAt(after, k) == Inventory.EntryOf(nodes[..i + 1], pods, names, profile, k) {
      EntryGrows(nodes, i, pods, names, profile, k);
    }
  }

  lemma OneMoreDescribed(listed: seq<NodeStatus>, s: NodeStatus, nodes: seq<Node>, i: nat, pods: seq<Pod>, names: set<string>, profile: MachineProfile)
    requires i < |nodes| && AllDescribed(listed, nodes[..i], pods, names, profile)
    requires NodeDescribed(s, nodes[i], pods, names, profile)
    ensures AllDescribed(listed + [s], nodes[..i + 1], pods, names, profile)
  {
    forall j | 0 <= j < i + 1 ensures NodeDescribed((listed + [s])[j], nodes[..i + 1][j], pods, names, profile) {
      assert j < i ==> nodes[..i + 1][j] == nodes[..i][j];
    }
  }

  predicate SomeServes(nodes: seq<Node>, profile: MachineProfile) {
    exists i :: 0 <= i < |nodes| && Inventory.ServesProfile(nodes[i], profile)
  }

  /** One node: its status, and the inventory with it counted in when it serves the profile. */
  method ProjectNode(nodes: seq<Node>, i: nat, profile: MachineProfile, start: map<string, InventoryStatus>, active: NodeRequests, waiting: NodeRequests,
                     ghost pods: seq<Pod>, ghost names: set<string>)
    returns (inventory: map<string, InventoryStatus>, status: NodeStatus)
    requires i < |nodes| && InventoryDescribed(start, nodes[..i], pods, names, profile)
    requires SumsByNode(active, pods, names, false) && SumsByNode(waiting, pods, names, true)
    ensures InventoryDescribed(inventory, nodes[..i + 1], pods, names, profile)
    ensures NodeDescribed(status, nodes[i], pods, names, profile) && status.ready == Inventory.ServesProfile(nodes[i], profile)
  {
    inventory := start;
    var node := nodes[i];
    if node.profileLabel != profile.name {
      status := NodeStatus(node.name, "", false, map[], map[], map[], map[]);
    } else {
      status := Inventory.ObserveNode(node, profile);
      status := status.(active := ListAt(active, node.name), pending := ListAt(waiting, node.name));
      if status.ready {
        inventory := CountNode(inventory, status);
      }
    }
    DescriptionGrows(start, inventory, nodes, i, pods, names, profile);
  }

  method ProjectNodes(nodes: seq<Node>, profile: MachineProfile, start: map<string, InventoryStatus>, active: NodeRequests, waiting: NodeRequests,
                      ghost pods: seq<Pod>, ghost names: set<string>)
    returns (inventory: map<string, InventoryStatus>, statuses: seq<NodeStatus>, readyProfile: bool)
    requires SumsByNode(active, pods, names, false) && SumsByNode(waiting, pods, names, true)
    requires ColumnsOf(start, pods, names)
    ensures InventoryDescribed(inventory, nodes, pods, names, profile)
    ensures NodesDescribed(statuses, nodes, pods, names, profile)
    ensures readyProfile == SomeServes(nodes, profile)
  {
    inventory, readyProfile := start, false;
    var listed: seq<NodeStatus> := [];
    assert nodes[..0] == [];
    for i := 0 to |nodes|
      invariant InventoryDescribed(inventory, nodes[..i], pods, names, profile)
      invariant AllDescribed(listed, nodes[..i], pods, names, profile)
      invariant readyProfile == exists j :: 0 <= j < i && Inventory.ServesProfile(nodes[j], profile)
    {
      var status;
      inventory, status := ProjectNode(nodes, i, profile, inventory, active, waiting, pods, names);
      OneMoreDescribed(listed, status, nodes, i, pods, names, profile);
      listed := listed + [status];
      if status.ready {
        readyProfile := true;
      }
    }
    assert nodes[..|nodes|] == nodes;
    statuses := Sorting.Sort(listed, (s: NodeStatus) => s.name);
  }

  // ---- node ports ------------------------------------------------------------------------------

  predicate PortListed(services: seq<seq<int>>, p: int) {
    p > 0 && exists i :: 0 <= i < |services| && p in services[i]
  }

  /** The positive NodePorts in the order of the Services, repetitions included. */
  function PositivePorts(ports: seq<int>): seq<int> {
    if ports == [] then [] else PositivePorts(ports[..|ports| - 1]) + if ports[|ports| - 1] > 0 then [ports[|ports| - 1]] else []
  }

  function AllPorts(services: seq<seq<int>>): seq<int> {
    if services == [] then [] else AllPorts(services[..|services| - 1]) + PositivePorts(services[|services| - 1])
  }

  lemma {:induction false} PositiveAreListed(ports: seq<int>, p: int)
    ensures p in PositivePorts(ports) <==> p > 0 && p in ports
  {
    if ports != [] {
      PositiveAreListed(ports[..|ports| - 1], p);
      assert ports == ports[..|ports| - 1] + [ports[|ports| - 1]];
    }
  }

  lemma {:induction false} PortsAreListed(services: seq<seq<int>>, p: int)
    ensures p in AllPorts(services) <==> PortListed(services, p)
  {
    if services != [] {
      var init, last := services[..|services| - 1], services[|services| - 1];
      PortsAreListed(init, p);
      PositiveAreListed(last, p);
      assert forall m :: 0 <= m < |init| ==> init[m] == services[m];
      assert services[|init|] == last;
    }
  }

  method CollectPorts(services: seq<seq<int>>) returns (ports: seq<int>)
    ensures ports == AllPorts(services)
  {
    ports := [];
    for i := 0 to |services|
      invariant ports == AllPorts(services[..i])
    {
      assert services[..i + 1][..i] == services[..i];
      ghost var before := ports;
      for j := 0 to |services[i]|
        invariant ports == before + PositivePorts(services[i][..j])
      {
        assert services[i][..j + 1][..j] == services[i][..j];
        if services[i][j] > 0 {
          ports := ports + [services[i][j]];
        }
      }
      assert services[i][..|services[i]|] == services[i];
    }
    assert services[..|services|] == services;
  }

  predicate Ascending(ports: seq<int>) {
    forall i, j :: 0 <= i < j < |ports| ==> ports[i] <= ports[j]
  }

  /** The stored ports are the positive NodePorts of all Services, each as often as it is listed, in ascending order. */
  method ProjectNodePorts(services: seq<seq<int>>) returns (r: NodePortStatus)
    ensures r.isFresh && Ascending(r.ports) && multiset(r.ports) == multiset(AllPorts(services))
    ensures forall p :: p in r.ports <==> PortListed(services, p)
  {
    var ports := CollectPorts(services);
    var sorted: seq<int> := [];
    for i := 0 to |ports|
      invariant Ascending(sorted) && multiset(sorted) == multiset(ports[..i])
    {
      assert ports[..i + 1] == ports[..i] + [ports[i]];
      sorted := InsertPort(sorted, ports[i]);
    }
    assert ports[..|ports|] == ports;
    forall p ensures p in sorted <==> PortListed(services, p) {
      PortsAreListed(services, p);
      assert p in sorted <==> p in multiset(sorted);
      assert p in ports <==> p in multiset(ports);
    }
    r := NodePortStatus(sorted, true);
  }

  method PortPosition(sorted: seq<int>, p: int) returns (i: nat)
    ensures i <= |sorted| && (i > 0 ==> sorted[i - 1] <= p) && forall j :: i <= j < |sorted| ==> sorted[j] > p
  {
    i := |sorted|;
    while i > 0 && sorted[i - 1] > p
      invariant i <= |sorted| && forall j :: i <= j < |sorted| ==> sorted[j] > p
    {
      i := i - 1;
    }
  }

  method InsertPort(sorted: seq<int>, p: int) returns (r: seq<int>)
    requires Ascending(sorted)
    ensures Ascending(r) && multiset(r) == multiset(sorted) + multiset{p}
  {
    var i := PortPosition(sorted, p);
    InsertedAscends(sorted, p, i);
    InsertedIsAdded(sorted, p, i);
    r := sorted[..i] + [p] + sorted[i..];
  }

  lemma InsertedIsAdded(sorted: seq<int>, p: int, i: nat)
    requires i <= |sorted|
    ensures multiset(sorted[..i] + [p] + sorted[i..]) == multiset(sorted) + multiset{p}
  {
    assert sorted == sorted[..i] + sorted[i..];
  }

  lemma InsertedAscends(sorted: seq<int>, p: int, i: nat)
    requires Ascending(sorted) && i <= |sorted| && (i > 0 ==> sorted[i - 1] <= p) && forall j :: i <= j < |sorted| ==> sorted[j] > p
    ensures Ascending(sorted[..i] + [p] + sorted[i..])
  {
    var r := sorted[..i] + [p] + sorted[i..];
    assert forall j :: 0 <= j < i ==> r[j] == sorted[j] <= p;
    assert r[i] == p;
    assert forall j :: i < j < |r| ==> r[j] == sorted[j - 1] > p;
    forall a, b | 0 <= a < b < |r| ensures r[a] <= r[b] {
      if b < i {
        assert sorted[a] <= sorted[b];
      } else if a > i {
        assert sorted[a - 1] <= sorted[b - 1];
      }
    }
  }

  // ---- storage ---------------------------------------------------------------------------------

  method CollectClasses(classes: seq<Storage.StorageClass>) returns (r: map<string, string>)
    ensures r == Storage.TopolvmClasses(classes)
  {
    r := map[];
    for i := 0 to |classes|
      invariant r == Storage.TopolvmClasses(classes[..i])
    {
      assert classes[..i + 1][..i] == classes[..i];
      if classes[i].provisioner == Storage.TOPOLVM {
        r := r[classes[i].name := classes[i].deviceClass];
      }
    }
    assert classes[..|classes|] == classes;
  }

  const EMPTY_STORAGE := StorageStatus(0, map[], None, false, false)

  function StorageNodeAt(nodes: map<string, StorageNode>, host: string): StorageNode {
    if host in nodes then nodes[host] else StorageNode(0, None, false, false)
  }

  function StorageOf(classes: map<string, string>, pvs: seq<Storage.Volume>, nodes: seq<Node>, eligible: set<string>): map<string, StorageStatus> {
    map c | c in classes :: Storage.EntryFor(pvs, c, nodes, eligible, classes[c])
  }

  function Charged(entry: StorageStatus, pv: Storage.Volume): StorageStatus {
    var host := Storage.HostOf(pv.affinity);
    var total := entry.(allocatedPV := entry.allocatedPV + pv.capacity);
    if host == "" then total
    else
      var node := StorageNodeAt(entry.nodes, host);
      total.(nodes := entry.nodes[host := node.(allocatedPV := node.allocatedPV + pv.capacity)])
  }

  /** Charging a volume takes the entry of a list to the entry of the longer list. */
  lemma ChargeStep(pvs: seq<Storage.Volume>, i: nat, c: string, eligible: set<string>, deviceClass: string)
    requires i < |pvs|
    ensures Storage.EntryFor(pvs[..i + 1], c, [], eligible, deviceClass) ==
      if Storage.Charges(pvs[i], c) then Charged(Storage.EntryFor(pvs[..i], c, [], eligible, deviceClass), pvs[i])
      else Storage.EntryFor(pvs[..i], c, [], eligible, deviceClass)
  {
    assert pvs[..i + 1][..i] == pvs[..i] && pvs[..i + 1][i] == pvs[i];
    var host := Storage.HostOf(pvs[i].affinity);
    if host != "" && host !in Storage.VolumeHosts(pvs[..i], c) {
      Storage.NothingAllocated(pvs[..i], c, host);
    }
  }

  lemma ChargeStepAll(classes: map<string, string>, pvs: seq<Storage.Volume>, i: nat, eligible: set<string>,
                      before: map<string, StorageStatus>, after: map<string, StorageStatus>)
    requires i < |pvs| && before == StorageOf(classes, pvs[..i], [], eligible) && after.Keys == classes.Keys
    requires forall c :: c in classes ==> after[c] == if Storage.Charges(pvs[i], c) then Charged(before[c], pvs[i]) else before[c]
    ensures after == StorageOf(classes, pvs[..i + 1], [], eligible)
  {
    forall c | c in classes ensures after[c] == Storage.EntryFor(pvs[..i + 1], c, [], eligible, classes[c]) {
      ChargeStep(pvs, i, c, eligible, classes[c]);
    }
  }

  method ChargeVolume(inventory: map<string, StorageStatus>, pv: Storage.Volume) returns (r: map<string, StorageStatus>)
    ensures r.Keys == inventory.Keys
    ensures forall c :: c in inventory ==> r[c] == if Storage.Charges(pv, c) then Charged(inventory[c], pv) else inventory[c]
  {
    if !pv.bound || pv.className == "" || pv.className !in inventory {
      return inventory;
    }
    r := inventory[pv.className := Charged(inventory[pv.className], pv)];
  }

  method ChargeVolumes(classes: map<string, string>, pvs: seq<Storage.Volume>, ghost eligible: set<string>)
    returns (inventory: map<string, StorageStatus>)
    ensures inventory == StorageOf(classes, pvs, [], eligible)
  {
    inventory := map c | c in classes :: EMPTY_STORAGE;
    for i := 0 to |pvs|
      invariant inventory == StorageOf(classes, pvs[..i], [], eligible)
    {
      ghost var before := inventory;
      inventory := ChargeVolume(inventory, pvs[i]);
      ChargeStepAll(classes, pvs, i, eligible, before, inventory);
    }
    assert pvs[..|pvs|] == pvs;
  }

  function Freed(entry: StorageStatus, node: Node, free: int): StorageStatus {
    entry.(free := Storage.Plus(entry.free, free), known := true, isFresh := true,
           nodes := entry.nodes[node.name := StorageNodeAt(entry.nodes, node.name).(free := Some(free), known := true, isFresh := true)])
  }

  lemma NodeEntryStep(pvs: seq<Storage.Volume>, c: string, nodes: seq<Node>, i: nat, eligible: set<string>, deviceClass: string, h: string)
    requires i < |nodes|
    ensures Storage.NodeEntry(pvs, c, nodes[..i + 1], eligible, deviceClass, h) ==
      var entry := Storage.NodeEntry(pvs, c, nodes[..i], eligible, deviceClass, h);
      if Storage.Reports(nodes[i], eligible, deviceClass) && h == nodes[i].name
      then entry.(free := Storage.NodeFree(nodes[i], deviceClass), known := true, isFresh := true) else entry
  {
    assert nodes[..i + 1][..i] == nodes[..i] && nodes[..i + 1][i] == nodes[i];
  }

  lemma TotalsStep(nodes: seq<Node>, i: nat, eligible: set<string>, deviceClass: string)
    requires i < |nodes|
    ensures var reports := Storage.Reports(nodes[i], eligible, deviceClass);
      && Storage.FreeTotal(nodes[..i + 1], eligible, deviceClass) ==
         (if reports then Storage.Plus(Storage.FreeTotal(nodes[..i], eligible, deviceClass), Storage.NodeFree(nodes[i], deviceClass).value)
          else Storage.FreeTotal(nodes[..i], eligible, deviceClass))
      && Storage.Reporting(nodes[..i + 1], eligible, deviceClass) ==
         Storage.Reporting(nodes[..i], eligible, deviceClass) + (if reports then {nodes[i].name} else {})
      && Storage.ReportCount(nodes[..i + 1], eligible, deviceClass) ==
         Storage.ReportCount(nodes[..i], eligible, deviceClass) + if reports then 1 else 0
  {
    assert nodes[..i + 1][..i] == nodes[..i] && nodes[..i + 1][i] == nodes[i];
  }

  lemma UnseenEntryIsEmpty(pvs: seq<Storage.Volume>, c: string, nodes: seq<Node>, eligible: set<string>, deviceClass: string, h: string)
    requires h !in Storage.VolumeHosts(pvs, c) + Storage.Reporting(nodes, eligible, deviceClass)
    ensures Storage.NodeEntry(pvs, c, nodes, eligible, deviceClass, h) == StorageNode(0, None, false, false)
  {
    if h != "" {
      Storage.NothingAllocated(pvs, c, h);
    }
    Storage.NothingReported(nodes, eligible, deviceClass, h);
  }

  lemma TableGrows(hosts: set<string>, f: string -> StorageNode, g: string -> StorageNode, host: string)
    requires forall h :: h in hosts && h != host ==> f(h) == g(h)
    ensures Storage.Table(hosts + {host}, g) == Storage.Table(hosts, f)[host := g(host)]
  {
  }

  lemma TableSame(hosts: set<string>, f: string -> StorageNode, g: string -> StorageNode)
    requires forall h :: h in hosts ==> f(h) == g(h)
    ensures Storage.Table(hosts, g) == Storage.Table(hosts, f)
  {
  }

  /** Counting a node takes the entry of a list to the entry of the longer list. */
  lemma FreeStep(pvs: seq<Storage.Volume>, c: string, nodes: seq<Node>, i: nat, eligible: set<string>, deviceClass: string)
    requires i < |nodes|
    ensures Storage.EntryFor(pvs, c, nodes[..i + 1], eligible, deviceClass) ==
      if Storage.Reports(nodes[i], eligible, deviceClass)
      then Freed(Storage.EntryFor(pvs, c, nodes[..i], eligible, deviceClass), nodes[i], Storage.NodeFree(nodes[i], deviceClass).value)
      else Storage.EntryFor(pvs, c, nodes[..i], eligible, deviceClass)
  {
    var name, shorter, longer := nodes[i].name, nodes[..i], nodes[..i + 1];
    var hosts := Storage.VolumeHosts(pvs, c) + Storage.Reporting(shorter, eligible, deviceClass);
    var hosts' := Storage.VolumeHosts(pvs, c) + Storage.Reporting(longer, eligible, deviceClass);
    var f := h => Storage.NodeEntry(pvs, c, shorter, eligible, deviceClass, h);
    var g := h => Storage.NodeEntry(pvs, c, longer, eligible, deviceClass, h);
    TotalsStep(nodes, i, eligible, deviceClass);
    forall h ensures g(h) == if Storage.Reports(nodes[i], eligible, deviceClass) && h == name
      then f(h).(free := Storage.NodeFree(nodes[i], deviceClass), known := true, isFresh := true) else f(h) {
      NodeEntryStep(pvs, c, nodes, i, eligible, deviceClass, h);
    }
    if Storage.Reports(nodes[i], eligible, deviceClass) {
      assert hosts' == hosts + {name};
      TableGrows(hosts, f, g, name);
      if name !in hosts {
        UnseenEntryIsEmpty(pvs, c, shorter, eligible, deviceClass, name);
      }
      assert StorageNodeAt(Storage.Table(hosts, f), name) == f(name);
    } else {
      assert hosts' == hosts;
      TableSame(hosts, f, g);
    }
    assert Storage.EntryFor(pvs, c, shorter, eligible, deviceClass).nodes == Storage.Table(hosts, f);
    assert Storage.EntryFor(pvs, c, longer, eligible, deviceClass).nodes == Storage.Table(hosts', g);
  }

  function CountsOf(classes: map<string, string>, nodes: seq<Node>, eligible: set<string>): map<string, nat> {
    map c | c in classes :: Storage.ReportCount(nodes, eligible, classes[c])
  }

  /** Adds one eligible node to every class, in any order. */
  method FreeOneNode(inventory0: map<string, StorageStatus>, counts0: map<string, nat>, classes: map<string, string>, node: Node)
    returns (inventory: map<string, StorageStatus>, counts: map<string, nat>)
    requires inventory0.Keys == counts0.Keys == classes.Keys
    ensures inventory.Keys == counts.Keys == classes.Keys
    ensures forall c :: c in classes ==>
      var free := Storage.NodeFree(node, classes[c]);
      && inventory[c] == (if free.Some? then Freed(inventory0[c], node, free.value) else inventory0[c])
      && counts[c] == counts0[c] + if free.Some? then 1 else 0
  {
    inventory, counts := inventory0, counts0;
    var left := classes.Keys;
    while left != {}
      invariant left <= classes.Keys && inventory.Keys == counts.Keys == classes.Keys
      invariant forall c :: c in left ==> inventory[c] == inventory0[c] && counts[c] == counts0[c]
      invariant forall c :: c in classes && c !in left ==>
        var free := Storage.NodeFree(node, classes[c]);
        && inventory[c] == (if free.Some? then Freed(inventory0[c], node, free.value) else inventory0[c])
        && counts[c] == counts0[c] + if free.Some? then 1 else 0
      decreases |left|
    {
      var c :| c in left;
      left := left - {c};
      var free := Storage.NodeFree(node, classes[c]);
      if free.Some? {
        counts := counts[c := counts[c] + 1];
        inventory := inventory[c := Freed(inventory[c], node, free.value)];
      }
    }
  }

  lemma FreeStepAll(classes: map<string, string>, pvs: seq<Storage.Volume>, nodes: seq<Node>, i: nat, eligible: set<string>,
                    before: map<string, StorageStatus>, after: map<string, StorageStatus>)
    requires i < |nodes| && after.Keys == classes.Keys && before == StorageOf(classes, pvs, nodes[..i], eligible)
    requires forall c :: c in classes ==>
      after[c] == if Storage.Reports(nodes[i], eligible, classes[c])
                  then Freed(before[c], nodes[i], Storage.NodeFree(nodes[i], classes[c]).value) else before[c]
    ensures after == StorageOf(classes, pvs, nodes[..i + 1], eligible)
  {
    forall c | c in classes ensures after[c] == Storage.EntryFor(pvs, c, nodes[..i + 1], eligible, classes[c]) {
      FreeStep(pvs, c, nodes, i, eligible, classes[c]);
    }
  }

  lemma CountStepAll(classes: map<string, string>, nodes: seq<Node>, i: nat, eligible: set<string>, counts0: map<string, nat>, counts: map<string, nat>)
    requires i < |nodes| && counts.Keys == classes.Keys && counts0 == CountsOf(classes, nodes[..i], eligible)
    requires forall c :: c in classes ==> counts[c] == counts0[c] + if Storage.Reports(nodes[i], eligible, classes[c]) then 1 else 0
    ensures counts == CountsOf(classes, nodes[..i + 1], eligible)
  {
    forall c | c in classes ensures counts[c] == Storage.ReportCount(nodes[..i + 1], eligible, classes[c]) {
      TotalsStep(nodes, i, eligible, classes[c]);
    }
  }

  /** Every class has a total, from as many reports as there are eligible nodes. */
  predicate StorageCounted(classes: map<string, string>, nodes: seq<Node>, eligible: set<string>) {
    forall c :: c in classes ==>
      Storage.FreeTotal(nodes, eligible, classes[c]).Some? && Storage.ReportCount(nodes, eligible, classes[c]) == |eligible|
  }

  method FreeNodes(start: map<string, StorageStatus>, classes: map<string, string>, ghost pvs: seq<Storage.Volume>, nodes: seq<Node>, eligible: set<string>)
    returns (inventory: map<string, StorageStatus>, counts: map<string, nat>)
    requires start == StorageOf(classes, pvs, [], eligible)
    ensures inventory == StorageOf(classes, pvs, nodes, eligible) && counts == CountsOf(classes, nodes, eligible)
  {
    inventory, counts := start, map c | c in classes :: 0;
    assert nodes[..0] == [];
    for i := 0 to |nodes|
      invariant inventory == StorageOf(classes, pvs, nodes[..i], eligible) && counts == CountsOf(classes, nodes[..i], eligible)
    {
      ghost var before, counts0 := inventory, counts;
      if nodes[i].name in eligible {
        inventory, counts := FreeOneNode(inventory, counts, classes, nodes[i]);
      }
      FreeStepAll(classes, pvs, nodes, i, eligible, before, inventory);
      CountStepAll(classes, nodes, i, eligible, counts0, counts);
    }
    assert nodes[..|nodes|] == nodes;
  }

  /** The totals of a class that is not fully counted are withdrawn. */
  function Forgotten(entry: StorageStatus): StorageStatus {
    entry.(free := None, known := false, isFresh := false)
  }

  /** Gives up at the first class, in any order, that is not known from n nodes. */
  method CheckCounted(all: map<string, StorageStatus>, counts: map<string, nat>, n: nat)
    returns (inventory: map<string, StorageStatus>, ok: bool)
    requires all.Keys == counts.Keys
    ensures ok == forall c :: c in all ==> all[c].known && counts[c] == n
    ensures ok ==> inventory == all
    ensures !ok ==> exists c :: c in all && !(all[c].known && counts[c] == n) && inventory == all[c := Forgotten(all[c])]
  {
    var left := all.Keys;
    while left != {}
      invariant left <= all.Keys
      invariant forall c :: c in all && c !in left ==> all[c].known && counts[c] == n
      decreases |left|
    {
      var c :| c in left;
      left := left - {c};
      if !all[c].known || counts[c] != n {
        return all[c := Forgotten(all[c])], false;
      }
    }
    return all, true;
  }

  lemma CountedIff(classes: map<string, string>, pvs: seq<Storage.Volume>, nodes: seq<Node>, eligible: set<string>)
    ensures var all, counts := StorageOf(classes, pvs, nodes, eligible), CountsOf(classes, nodes, eligible);
      (forall c :: c in all ==> all[c].known && counts[c] == |eligible|) <==> StorageCounted(classes, nodes, eligible)
  {
    var all, counts := StorageOf(classes, pvs, nodes, eligible), CountsOf(classes, nodes, eligible);
    forall c | c in classes
      ensures all[c].known == Storage.FreeTotal(nodes, eligible, classes[c]).Some?
      ensures counts[c] == Storage.ReportCount(nodes, eligible, classes[c])
    {
    }
  }

  predicate ClassCounted(classes: map<string, string>, nodes: seq<Node>, eligible: set<string>, c: string)
    requires c in classes
  {
    Storage.FreeTotal(nodes, eligible, classes[c]).Some? && Storage.ReportCount(nodes, eligible, classes[c]) == |eligible|
  }

  /** What a failure leaves: the full table with the totals of one class withdrawn that was not fully counted. Other classes that
      were not counted keep totals that look known. */
  ghost predicate StorageGivenUp(inventory: map<string, StorageStatus>, classes: map<string, string>, pvs: seq<Storage.Volume>, nodes: seq<Node>, eligible: set<string>) {
    var all := StorageOf(classes, pvs, nodes, eligible);
    exists c :: c in classes && !ClassCounted(classes, nodes, eligible, c) && inventory == all[c := Forgotten(all[c])]
  }

  /** Projects volumes and node capacities, and succeeds when every class is fully counted; then every stored class is
      complete. */
  method ProjectStorage(classes: map<string, string>, pvs: seq<Storage.Volume>, nodes: seq<Node>, eligible: set<string>)
    returns (inventory: map<string, StorageStatus>, ok: bool)
    ensures ok == StorageCounted(classes, nodes, eligible)
    ensures ok ==> inventory == StorageOf(classes, pvs, nodes, eligible)
    ensures !ok ==> StorageGivenUp(inventory, classes, pvs, nodes, eligible)
    ensures ok && Storage.Distinct(nodes) && (forall i :: 0 <= i < |nodes| ==> nodes[i].name != "") ==>
      forall c :: c in classes ==> c in inventory && Storage.CompleteEntry(inventory[c], pvs, c, nodes, eligible, classes[c])
  {
    var charged := ChargeVolumes(classes, pvs, eligible);
    var all, counts := FreeNodes(charged, classes, pvs, nodes, eligible);
    inventory, ok := CheckCounted(all, counts, |eligible|);
    CountedIff(classes, pvs, nodes, eligible);
    if ok {
      CountedIsComplete(classes, pvs, nodes, eligible);
    }
  }

  lemma CountedIsComplete(classes: map<string, string>, pvs: seq<Storage.Volume>, nodes: seq<Node>, eligible: set<string>)
    requires StorageCounted(classes, nodes, eligible)
    ensures Storage.Distinct(nodes) && (forall i :: 0 <= i < |nodes| ==> nodes[i].name != "") ==>
      forall c :: c in classes ==> Storage.CompleteEntry(StorageOf(classes, pvs, nodes, eligible)[c], pvs, c, nodes, eligible, classes[c])
  {
    if Storage.Distinct(nodes) && (forall i :: 0 <= i < |nodes| ==> nodes[i].name != "") {
      forall c | c in classes ensures Storage.CompleteEntry(StorageOf(classes, pvs, nodes, eligible)[c], pvs, c, nodes, eligible, classes[c]) {
        Storage.FullCountIsComplete(pvs, c, nodes, eligible, classes[c]);
      }
    }
  }
}
