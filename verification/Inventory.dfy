/** What the host lists say about a Cell's inventory: the sums that the Cell reconciler stores, the simpler
    per-cluster aggregate of internal/provider/host/inventory.go, and how the two relate. */
module Inventory {
  import opened Api
  import opened Sums
  import Quantities
  import Resolution

  // ---- pods ------------------------------------------------------------------------------------

  predicate Counts(pod: Pod, names: set<string>, pending: bool) {
    pod.cluster in names && if pending then pod.phase == PodPending else pod.phase in {PodRunning, PodUnknown}
  }

  /** Effective requests of the pending (or the active) Pods that belong to the named clusters. */
  function Requests(pods: seq<Pod>, names: set<string>, pending: bool, k: string): int {
    if pods == [] then 0
    else
      var last := pods[|pods| - 1];
      Requests(pods[..|pods| - 1], names, pending, k) + if Counts(last, names, pending) then Quantities.Effective(last, k) else 0
  }

  /** The part of Requests that sits on one node; "" stands for the Pods without a node. */
  function RequestsOn(pods: seq<Pod>, names: set<string>, pending: bool, node: string, k: string): int {
    if pods == [] then 0
    else
      var last := pods[|pods| - 1];
      RequestsOn(pods[..|pods| - 1], names, pending, node, k) +
      if Counts(last, names, pending) && last.nodeName == node then Quantities.Effective(last, k) else 0
  }

  /** What a node's own status records: nothing is ever booked on the empty name. */
  function BookedOn(pods: seq<Pod>, names: set<string>, pending: bool, node: string, k: string): int {
    if node == "" then 0 else RequestsOn(pods, names, pending, node, k)
  }

  // ---- the same, by phase ------------------------------------------------------------------------

  /** Effective requests of the Pods of the named clusters that are in one of the phases. */
  function PhaseSum(pods: seq<Pod>, names: set<string>, phases: set<PodPhase>, k: string): int {
    if pods == [] then 0
    else
      var last := pods[|pods| - 1];
      PhaseSum(pods[..|pods| - 1], names, phases, k) + if last.cluster in names && last.phase in phases then Quantities.Effective(last, k) else 0
  }

  /** Of those, the Pods on one node. */
  function PhaseSumOn(pods: seq<Pod>, names: set<string>, phases: set<PodPhase>, node: string, k: string): int {
    if pods == [] then 0
    else
      var last := pods[|pods| - 1];
      PhaseSumOn(pods[..|pods| - 1], names, phases, node, k) +
      if last.cluster in names && last.phase in phases && last.nodeName == node then Quantities.Effective(last, k) else 0
  }

  /** Active Pods are those in phase Running or Unknown, and together with the pending ones they are all that have not ended. */
  lemma {:induction false} RequestsByPhase(pods: seq<Pod>, names: set<string>, k: string)
    ensures Requests(pods, names, false, k) == PhaseSum(pods, names, {PodRunning, PodUnknown}, k)
    ensures Requests(pods, names, true, k) == PhaseSum(pods, names, {PodPending}, k)
    ensures Requests(pods, names, false, k) + Requests(pods, names, true, k) == PhaseSum(pods, names, {PodPending, PodRunning, PodUnknown}, k)
  {
    if pods != [] {
      RequestsByPhase(pods[..|pods| - 1], names, k);
    }
  }

  lemma {:induction false} RequestsOnByPhase(pods: seq<Pod>, names: set<string>, node: string, k: string)
    ensures RequestsOn(pods, names, false, node, k) == PhaseSumOn(pods, names, {PodRunning, PodUnknown}, node, k)
    ensures RequestsOn(pods, names, true, node, k) == PhaseSumOn(pods, names, {PodPending}, node, k)
  {
    if pods != [] {
      RequestsOnByPhase(pods[..|pods| - 1], names, node, k);
    }
  }

  /** What one more Pod adds: a Running or Unknown one to Requested, a Pending one to Pending, and one that has ended or belongs
      to no named cluster to neither. */
  lemma OnePodMore(pods: seq<Pod>, pod: Pod, names: set<string>, k: string)
    ensures Requests(pods + [pod], names, false, k) == Requests(pods, names, false, k)
      + if pod.cluster in names && (pod.phase == PodRunning || pod.phase == PodUnknown) then Quantities.Effective(pod, k) else 0
    ensures Requests(pods + [pod], names, true, k) == Requests(pods, names, true, k)
      + if pod.cluster in names && pod.phase == PodPending then Quantities.Effective(pod, k) else 0
    ensures pod.cluster !in names || pod.phase == PodSucceeded || pod.phase == PodFailed ==>
      forall pending :: Requests(pods + [pod], names, pending, k) == Requests(pods, names, pending, k)
  {
    assert (pods + [pod])[..|pods|] == pods;
  }

  // ---- conservation ------------------------------------------------------------------------------

  /** Conservation: every counted Pod is in exactly one per-node sum. */
  lemma {:induction false} RequestsAreConserved(pods: seq<Pod>, names: set<string>, pending: bool, nodes: set<string>, k: string)
    requires "" !in nodes
    requires forall i :: 0 <= i < |pods| && Counts(pods[i], names, pending) && pods[i].nodeName != "" ==> pods[i].nodeName in nodes
    ensures Requests(pods, names, pending, k) ==
      SetSum(nodes, n => RequestsOn(pods, names, pending, n, k)) + RequestsOn(pods, names, pending, "", k)
  {
    var f := n => RequestsOn(pods, names, pending, n, k);
    if pods == [] {
      SetSumZero(nodes, f);
    } else {
      var init, last := pods[..|pods| - 1], pods[|pods| - 1];
      RequestsAreConserved(init, names, pending, nodes, k);
      var g := n => RequestsOn(init, names, pending, n, k);
      SetSumRaise(nodes, g, f, last.nodeName, if Counts(last, names, pending) then Quantities.Effective(last, k) else 0);
      assert SetSum(nodes, n => RequestsOn(init, names, pending, n, k)) == SetSum(nodes, g) by {
        SetSumEqual(nodes, n => RequestsOn(init, names, pending, n, k), g);
      }
    }
    assert SetSum(nodes, n => RequestsOn(pods, names, pending, n, k)) == SetSum(nodes, f) by {
      SetSumEqual(nodes, n => RequestsOn(pods, names, pending, n, k), f);
    }
  }

  /** Requests of several clusters are the sum of the requests of each. */
  lemma {:induction false} RequestsSplitByCluster(pods: seq<Pod>, names: set<string>, pending: bool, k: string)
    ensures Requests(pods, names, pending, k) == SetSum(names, c => Requests(pods, {c}, pending, k))
  {
    var f := c => Requests(pods, {c}, pending, k);
    if pods == [] {
      SetSumZero(names, f);
    } else {
      var init, last := pods[..|pods| - 1], pods[|pods| - 1];
      RequestsSplitByCluster(init, names, pending, k);
      var g := c => Requests(init, {c}, pending, k);
      SetSumRaise(names, g, f, last.cluster, if Counts(last, {last.cluster}, pending) then Quantities.Effective(last, k) else 0);
      assert SetSum(names, c => Requests(init, {c}, pending, k)) == SetSum(names, g) by {
        SetSumEqual(names, c => Requests(init, {c}, pending, k), g);
      }
    }
    assert SetSum(names, c => Requests(pods, {c}, pending, k)) == SetSum(names, f) by {
      SetSumEqual(names, c => Requests(pods, {c}, pending, k), f);
    }
  }

  // ---- nodes -----------------------------------------------------------------------------------

  /** The first Ready condition decides. */
  predicate NodeReady(readiness: seq<(string, bool)>) {
    readiness != [] && if readiness[0].0 == "Ready" then readiness[0].1 else NodeReady(readiness[1..])
  }

  predicate Observes(devices: seq<Device>, k: string) {
    k in {CPU, MEMORY, EPHEMERAL} || Resolution.Declares(devices, k)
  }

  function Observed(list: ResourceList, devices: seq<Device>): ResourceList {
    map k | k in list && Observes(devices, k) :: list[k]
  }

  /** Ready, labelled with the profile, and offering every declared device. */
  predicate ServesProfile(node: Node, profile: MachineProfile) {
    && NodeReady(node.readiness)
    && node.profileLabel == profile.name
    && forall i :: 0 <= i < |profile.devices| ==>
         At(node.capacity, profile.devices[i].resourceName) > 0 && At(node.allocatable, profile.devices[i].resourceName) > 0
  }

  /** A condition of type Ready is there, and the first one is true. */
  predicate FirstReadyIsTrue(readiness: seq<(string, bool)>) {
    exists i :: 0 <= i < |readiness| && readiness[i] == ("Ready", true) && forall j :: 0 <= j < i ==> readiness[j].0 != "Ready"
  }

  lemma {:induction false} ReadyIsFirst(readiness: seq<(string, bool)>)
    ensures NodeReady(readiness) <==> FirstReadyIsTrue(readiness)
  {
    if readiness != [] {
      var rest := readiness[1..];
      ReadyIsFirst(rest);
      if readiness[0].0 == "Ready" {
        assert FirstReadyIsTrue(readiness) <==> readiness[0].1;
      } else {
        if FirstReadyIsTrue(rest) {
          var i :| 0 <= i < |rest| && rest[i] == ("Ready", true) && forall j :: 0 <= j < i ==> rest[j].0 != "Ready";
          assert readiness[i + 1] == rest[i] && forall j :: 1 <= j < i + 1 ==> readiness[j] == rest[j - 1];
        }
        if FirstReadyIsTrue(readiness) {
          var i :| 0 <= i < |readiness| && readiness[i] == ("Ready", true) && forall j :: 0 <= j < i ==> readiness[j].0 != "Ready";
          assert rest[i - 1] == readiness[i] && forall j :: 0 <= j < i - 1 ==> rest[j] == readiness[j + 1];
        }
      }
    }
  }

  method IsNodeReady(readiness: seq<(string, bool)>) returns (r: bool)
    ensures r == NodeReady(readiness)
  {
    for i := 0 to |readiness|
      invariant NodeReady(readiness) == NodeReady(readiness[i..])
    {
      if readiness[i].0 == "Ready" {
        return readiness[i].1;
      }
      assert readiness[i..][1..] == readiness[i + 1..];
    }
    r := false;
  }

  /** Copies cpu, memory, ephemeral-storage and the declared devices, where present. */
  method CopyObserved(list: ResourceList, devices: seq<Device>) returns (r: ResourceList)
    ensures r == Observed(list, devices)
  {
    r := map[];
    var compute := [CPU, MEMORY, EPHEMERAL];
    for i := 0 to 3
      invariant r == map k | k in list && k in compute[..i] :: list[k]
    {
      if compute[i] in list {
        r := r[compute[i] := list[compute[i]]];
      }
    }
    assert compute[..3] == compute;
    assert forall k :: Observes(devices[..0], k) <==> k in compute;
    for i := 0 to |devices|
      invariant r == Observed(list, devices[..i])
    {
      forall k ensures Observes(devices[..i + 1], k) <==> Observes(devices[..i], k) || k == devices[i].resourceName {
        DeclaresOneMore(devices, i, k);
      }
      if devices[i].resourceName in list {
        r := r[devices[i].resourceName := list[devices[i].resourceName]];
      }
    }
    assert devices[..|devices|] == devices;
  }

  /** Copies the observed keys of a node and decides whether it serves the profile. */
  method ObserveNode(node: Node, profile: MachineProfile) returns (status: NodeStatus)
    ensures status == NodeStatus(node.name, profile.name, ServesProfile(node, profile),
                                 Observed(node.capacity, profile.devices), Observed(node.allocatable, profile.devices), map[], map[])
    ensures status.ready <==>
      && FirstReadyIsTrue(node.readiness) && node.profileLabel == profile.name
      && forall i :: 0 <= i < |profile.devices| ==>
           var device := profile.devices[i].resourceName;
           device in node.capacity && node.capacity[device] > 0 && device in node.allocatable && node.allocatable[device] > 0
    ensures forall k :: k in {"cpu", "memory", "ephemeral-storage"} || Resolution.Declares(profile.devices, k) ==>
      (k in status.allocatable <==> k in node.allocatable) && At(status.allocatable, k) == At(node.allocatable, k)
      && (k in status.capacity <==> k in node.capacity) && At(status.capacity, k) == At(node.capacity, k)
  {
    ReadyIsFirst(node.readiness);
    var ready := IsNodeReady(node.readiness);
    ready := ready && node.profileLabel == profile.name;
    var capacity := CopyObserved(node.capacity, profile.devices);
    var allocatable := CopyObserved(node.allocatable, profile.devices);
    ghost var base := ready;
    for i := 0 to |profile.devices|
      invariant ready == (base && forall j :: 0 <= j < i ==>
        At(node.capacity, profile.devices[j].resourceName) > 0 && At(node.allocatable, profile.devices[j].resourceName) > 0)
    {
      var name := profile.devices[i].resourceName;
      if name !in node.capacity || node.capacity[name] <= 0 {
        ready := false;
      }
      if name !in node.allocatable || node.allocatable[name] <= 0 {
        ready := false;
      }
    }
    status := NodeStatus(node.name, profile.name, ready, capacity, allocatable, map[], map[]);
  }

  lemma DeclaresOneMore(devices: seq<Device>, i: nat, k: string)
    requires i < |devices|
    ensures Resolution.Declares(devices[..i + 1], k) <==> Resolution.Declares(devices[..i], k) || k == devices[i].resourceName
  {
    var longer, shorter := devices[..i + 1], devices[..i];
    assert forall j :: 0 <= j < i ==> longer[j] == shorter[j];
    assert longer[i] == devices[i];
  }

  /** The node contributes key k to the aggregate. */
  predicate Contributes(node: Node, profile: MachineProfile, k: string) {
    ServesProfile(node, profile) && k in node.capacity && Observes(profile.devices, k)
  }

  function CapacityOf(nodes: seq<Node>, profile: MachineProfile, k: string): int {
    if nodes == [] then 0
    else
      var last := nodes[|nodes| - 1];
      CapacityOf(nodes[..|nodes| - 1], profile, k) + if Contributes(last, profile, k) then last.capacity[k] else 0
  }

  function AllocatableOf(nodes: seq<Node>, profile: MachineProfile, k: string): int {
    if nodes == [] then 0
    else
      var last := nodes[|nodes| - 1];
      AllocatableOf(nodes[..|nodes| - 1], profile, k) + if Contributes(last, profile, k) then At(last.allocatable, k) else 0
  }

  predicate Offered(nodes: seq<Node>, profile: MachineProfile, k: string) {
    exists i :: 0 <= i < |nodes| && Contributes(nodes[i], profile, k)
  }

  /** The inventory entry of k: the estimate is the floored difference of the totals, whatever the node order. */
  function EntryOf(nodes: seq<Node>, pods: seq<Pod>, names: set<string>, profile: MachineProfile, k: string): InventoryStatus {
    var requested := Requests(pods, names, false, k);
    InventoryStatus(
      CapacityOf(nodes, profile, k), AllocatableOf(nodes, profile, k), requested, Requests(pods, names, true, k),
      if Offered(nodes, profile, k) then Max(0, AllocatableOf(nodes, profile, k) - requested) else 0)
  }

  /** What one more node adds to the entry of k: its capacity and allocatable amount, when it is Ready, carries the profile's
      label, has all declared devices and declares k, and k is a compute resource or a declared device. */
  lemma OneNodeMore(nodes: seq<Node>, node: Node, pods: seq<Pod>, names: set<string>, profile: MachineProfile, k: string)
    ensures var before, after := EntryOf(nodes, pods, names, profile, k), EntryOf(nodes + [node], pods, names, profile, k);
      && after.requested == before.requested && after.pending == before.pending
      && (if ServesProfile(node, profile) && k in node.capacity && (k == CPU || k == MEMORY || k == EPHEMERAL || Resolution.Declares(profile.devices, k))
          then after.capacity == before.capacity + node.capacity[k] && after.allocatable == before.allocatable + At(node.allocatable, k)
            && after.available == Max(0, after.allocatable - after.requested)
          else after == before)
  {
    var all := nodes + [node];
    assert all[..|nodes|] == nodes && all[|nodes|] == node;
    assert forall i :: 0 <= i < |nodes| ==> all[i] == nodes[i];
  }

  // ---- the simple aggregate ------------------------------------------------------------------------

  function TotalOf(lists: seq<Node>, allocatable: bool, k: string): int {
    if lists == [] then 0
    else
      var last := lists[|lists| - 1];
      TotalOf(lists[..|lists| - 1], allocatable, k) + At(if allocatable then last.allocatable else last.capacity, k)
  }

  /** All nodes and the Pods of one cluster, one resource. */
  method AggregateResourceInventory(nodes: seq<Node>, pods: seq<Pod>, cluster: string, k: string) returns (r: InventoryStatus)
    ensures r == InventoryStatus(
      TotalOf(nodes, false, k), TotalOf(nodes, true, k), Requests(pods, {cluster}, false, k), Requests(pods, {cluster}, true, k),
      Max(0, TotalOf(nodes, true, k) - Requests(pods, {cluster}, false, k)))
    ensures r.requested == PhaseSum(pods, {cluster}, {PodRunning, PodUnknown}, k) && r.pending == PhaseSum(pods, {cluster}, {PodPending}, k)
  {
    RequestsByPhase(pods, {cluster}, k);
    var capacity, allocatable, requested, pending := 0, 0, 0, 0;
    for i := 0 to |nodes|
      invariant capacity == TotalOf(nodes[..i], false, k) && allocatable == TotalOf(nodes[..i], true, k)
    {
      assert nodes[..i + 1][..i] == nodes[..i];
      if k in nodes[i].capacity {
        capacity := capacity + nodes[i].capacity[k];
      }
      if k in nodes[i].allocatable {
        allocatable := allocatable + nodes[i].allocatable[k];
      }
    }
    assert nodes[..|nodes|] == nodes;
    for i := 0 to |pods|
      invariant requested == Requests(pods[..i], {cluster}, false, k) && pending == Requests(pods[..i], {cluster}, true, k)
    {
      assert pods[..i + 1][..i] == pods[..i];
      if pods[i].cluster != cluster || pods[i].phase == PodSucceeded || pods[i].phase == PodFailed {
        continue;
      }
      var requests := Quantities.EffectivePodRequests(pods[i]);
      if pods[i].phase == PodPending {
        pending := pending + At(requests, k);
      } else {
        requested := requested + At(requests, k);
      }
    }
    assert pods[..|pods|] == pods;
    var available := allocatable - requested;
    r := InventoryStatus(capacity, allocatable, requested, pending, if available < 0 then 0 else available);
  }

  /** When every node serves the profile and declares capacity for what it can allocate, the totals are all the nodes'. */
  lemma {:induction false} TotalsAgree(nodes: seq<Node>, profile: MachineProfile, k: string)
    requires Observes(profile.devices, k)
    requires forall i :: 0 <= i < |nodes| ==> ServesProfile(nodes[i], profile) && (k in nodes[i].allocatable ==> k in nodes[i].capacity)
    ensures CapacityOf(nodes, profile, k) == TotalOf(nodes, false, k)
    ensures AllocatableOf(nodes, profile, k) == TotalOf(nodes, true, k)
  {
    if nodes != [] {
      TotalsAgree(nodes[..|nodes| - 1], profile, k);
    }
  }

  /** The stored inventory refines the simple aggregate: Requested and Pending are its sums over the Cell's
      clusters, and on a uniform Cell Capacity and Allocatable are its totals. */
  lemma EntryRefinesAggregate(nodes: seq<Node>, pods: seq<Pod>, names: set<string>, profile: MachineProfile, k: string)
    requires Observes(profile.devices, k)
    ensures EntryOf(nodes, pods, names, profile, k).requested == SetSum(names, c => Requests(pods, {c}, false, k))
    ensures EntryOf(nodes, pods, names, profile, k).pending == SetSum(names, c => Requests(pods, {c}, true, k))
    ensures
      (forall i :: 0 <= i < |nodes| ==> ServesProfile(nodes[i], profile) && (k in nodes[i].allocatable ==> k in nodes[i].capacity))
      ==> EntryOf(nodes, pods, names, profile, k).capacity == TotalOf(nodes, false, k)
          && EntryOf(nodes, pods, names, profile, k).allocatable == TotalOf(nodes, true, k)
  {
    RequestsSplitByCluster(pods, names, false, k);
    RequestsSplitByCluster(pods, names, true, k);
    if forall i :: 0 <= i < |nodes| ==> ServesProfile(nodes[i], profile) && (k in nodes[i].allocatable ==> k in nodes[i].capacity) {
      TotalsAgree(nodes, profile, k);
    }
  }
}
