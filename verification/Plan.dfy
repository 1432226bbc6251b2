/** Feasibility of a VirtualCluster on a Cell (internal/controller/plan_evaluator.go).
    Each check is given as a function of the stored status and as a method that follows the source's
    iteration; the methods agree with the functions whatever order maps are iterated in. */
module Plan {
  import opened Api
  import opened Text
  import Conditions
  import Resolution
  import Sums
  import Sorting

  datatype CheckStatus = Passed | Failed | Unknown

  datatype Check = Check(name: string, status: CheckStatus)

  datatype Decision = Accepted | Rejected | Undecided

  const INVENTORY_FRESH := "InventoryFresh"

  // ---- the decision --------------------------------------------------------------------------

  predicate SomeCheck(checks: seq<Check>, status: CheckStatus) {
    exists i :: 0 <= i < |checks| && checks[i].status == status
  }

  function Decide(checks: seq<Check>): Decision {
    if SomeCheck(checks, Failed) then Rejected
    else if checks == [] || SomeCheck(checks, Unknown) then Undecided
    else Accepted
  }

  /** The decision depends on the checks only as a multiset. */
  lemma DecisionIgnoresOrder(a: seq<Check>, b: seq<Check>)
    requires multiset(a) == multiset(b)
    ensures Decide(a) == Decide(b)
  {
    assert |a| == |multiset(a)| == |multiset(b)| == |b|;
    forall status: CheckStatus ensures SomeCheck(a, status) == SomeCheck(b, status) {
      if SomeCheck(a, status) {
        var i :| 0 <= i < |a| && a[i].status == status;
        assert a[i] in multiset(b);
      }
      if SomeCheck(b, status) {
        var i :| 0 <= i < |b| && b[i].status == status;
        assert b[i] in multiset(a);
      }
    }
  }

  /** Sorts the checks by name and folds them, stopping at the first failure. */
  method Finalize(checks: seq<Check>) returns (sorted: seq<Check>, decision: Decision)
    ensures multiset(sorted) == multiset(checks)
    ensures Sorting.Sorted(sorted, (c: Check) => c.name)
    ensures decision == Decide(checks)
  {
    sorted := Sorting.Sort(checks, (c: Check) => c.name);
    DecisionIgnoresOrder(sorted, checks);
    decision := Accepted;
    for i := 0 to |sorted|
      invariant forall j :: 0 <= j < i ==> sorted[j].status != Failed
      invariant decision == if exists j :: 0 <= j < i && sorted[j].status == Unknown then Undecided else Accepted
    {
      if sorted[i].status == Failed {
        decision := Rejected;
        return;
      }
      if sorted[i].status == Unknown {
        decision := Undecided;
      }
    }
    if |sorted| == 0 {
      decision := Undecided;
    }
  }

  // ---- entitlement ---------------------------------------------------------------------------

  /** The amount of a resource a class entitles its clusters to request. */
  function Requested(hard: QuotaList, resource: string): int {
    if Resolution.REQUESTS + resource in hard then hard[Resolution.REQUESTS + resource].milli else 0
  }

  function Reservation(resource: string): int {
    At(CONTROL_PLANE_RESERVATION, resource) + At(REFLECTED_SYSTEM_RESERVATION, resource)
  }

  function Required(hard: QuotaList, resource: string): int {
    Requested(hard, resource) + Reservation(resource)
  }

  /** The amount a class sets for a quota key; an absent key counts as nothing. */
  function Amount(hard: QuotaList, key: string): int {
    if key in hard then hard[key].milli else 0
  }

  /** 500 and 100 milli of CPU, 1 GiB and 256 MiB of memory, and no ephemeral storage are reserved on top of what is requested. */
  lemma RequiredAmounts(hard: QuotaList)
    ensures Required(hard, CPU) == Amount(hard, "requests.cpu") + 600
    ensures Required(hard, MEMORY) == Amount(hard, "requests.memory") + 1342177280000
    ensures Required(hard, EPHEMERAL) == Amount(hard, "requests.ephemeral-storage")
  {
    assert Resolution.REQUESTS + CPU == "requests.cpu";
    assert Resolution.REQUESTS + MEMORY == "requests.memory";
    assert Resolution.REQUESTS + EPHEMERAL == "requests.ephemeral-storage";
    assert CPU[0] == 'c' && MEMORY[0] == 'm' && EPHEMERAL[0] == 'e';
  }

  method EntitlementRequests(hard: QuotaList) returns (r: ResourceList)
    ensures forall resource :: resource in r <==> Resolution.REQUESTS + resource in hard
    ensures forall resource :: At(r, resource) == Requested(hard, resource)
  {
    r := map[];
    var left := hard.Keys;
    while left != {}
      invariant left <= hard.Keys
      invariant forall resource :: resource in r <==>
        Resolution.REQUESTS + resource in hard && Resolution.REQUESTS + resource !in left
      invariant forall resource :: resource in r ==> r[resource] == hard[Resolution.REQUESTS + resource].milli
      decreases |left|
    {
      var key :| key in left;
      var name := TrimPrefix(key, Resolution.REQUESTS);
      if name != key {
        assert key == Resolution.REQUESTS + name;
        r := r[name := hard[key].milli];
      } else {
        assert forall resource :: Resolution.REQUESTS + resource == key ==> TrimPrefix(key, Resolution.REQUESTS) == resource;
      }
      left := left - {key};
      forall resource ensures resource in r <==> Resolution.REQUESTS + resource in hard && Resolution.REQUESTS + resource !in left {
        if Resolution.REQUESTS + resource == key {
          assert TrimPrefix(key, Resolution.REQUESTS) == resource;
        }
      }
    }
  }

  // ---- the single checks ---------------------------------------------------------------------

  function PassedIf(condition: bool, otherwise: CheckStatus): CheckStatus {
    if condition then Passed else otherwise
  }

  function VersionStatus(observed: string): CheckStatus {
    if observed == "" then Unknown else PassedIf(observed == K3K_VERSION, Failed)
  }

  function CapacityStatus(inventory: InventoryStatus, required: int): CheckStatus {
    if inventory.allocatable == 0 && inventory.available == 0 then Unknown
    else PassedIf(inventory.available >= required, Failed)
  }

  predicate Serves(node: NodeStatus, profile: string) {
    node.ready && node.profile == profile
  }

  predicate SomeServes(nodes: seq<NodeStatus>, profile: string) {
    exists i :: 0 <= i < |nodes| && Serves(nodes[i], profile)
  }

  /** One node serving the profile has the whole amount left. */
  predicate FitsLocally(nodes: seq<NodeStatus>, profile: string, resource: string, required: int) {
    exists i :: 0 <= i < |nodes| && Serves(nodes[i], profile)
      && At(nodes[i].allocatable, resource) - At(nodes[i].active, resource) >= required
  }

  function AcceleratorStatus(nodes: seq<NodeStatus>, profile: string, requests: ResourceList): CheckStatus {
    if forall r :: r in requests && requests[r] != 0 ==> FitsLocally(nodes, profile, r, requests[r]) then Passed
    else if SomeServes(nodes, profile) then Failed
    else Unknown
  }

  /** Ranges over the requests in any order and leaves at the first one that no node can serve. */
  method AcceleratorCheck(nodes: seq<NodeStatus>, profile: string, requests: ResourceList) returns (status: CheckStatus)
    ensures status == AcceleratorStatus(nodes, profile, requests)
  {
    var left := requests.Keys;
    while left != {}
      invariant left <= requests.Keys
      invariant forall r :: r in requests && r !in left && requests[r] != 0 ==> FitsLocally(nodes, profile, r, requests[r])
      decreases |left|
    {
      var r :| r in left;
      left := left - {r};
      if requests[r] != 0 {
        var matched, fits := false, false;
        for i := 0 to |nodes|
          invariant matched == exists j :: 0 <= j < i && Serves(nodes[j], profile)
          invariant !fits
          invariant forall j :: 0 <= j < i && Serves(nodes[j], profile) ==>
            At(nodes[j].allocatable, r) - At(nodes[j].active, r) < requests[r]
        {
          if Serves(nodes[i], profile) {
            matched := true;
            if At(nodes[i].allocatable, r) - At(nodes[i].active, r) >= requests[r] {
              fits := true;
              break;
            }
          }
        }
        if !fits {
          return if matched then Failed else Unknown;
        }
      }
    }
    status := Passed;
  }

  /** Every requests key has a limits key of the same amount. */
  predicate QuotaPaired(hard: QuotaList) {
    forall key :: key in hard && HasPrefix(key, Resolution.REQUESTS) ==>
      var limit := Resolution.LIMITS + TrimPrefix(key, Resolution.REQUESTS);
      limit in hard && hard[limit].milli == hard[key].milli
  }

  predicate SomeFreeNode(storage: StorageStatus) {
    exists n :: n in storage.nodes && storage.nodes[n].known && storage.nodes[n].isFresh
      && storage.nodes[n].free.Some? && storage.nodes[n].free.value > 0
  }

  function StorageCheckStatus(inventory: map<string, StorageStatus>, name: string): CheckStatus {
    if name !in inventory || !inventory[name].known || !inventory[name].isFresh || inventory[name].free.None? then Unknown
    else PassedIf(SomeFreeNode(inventory[name]), Unknown)
  }

  function PortsInRange(ports: seq<int>): set<int> {
    set p | p in ports && NODE_PORT_MIN <= p <= NODE_PORT_MAX
  }

  function NodePortCheckStatus(nodePorts: NodePortStatus): CheckStatus {
    if !nodePorts.isFresh then Unknown
    else PassedIf(|PortsInRange(nodePorts.ports)| < NODE_PORT_MAX - NODE_PORT_MIN + 1, Failed)
  }

  method NodePortCheck(nodePorts: NodePortStatus) returns (status: CheckStatus)
    ensures status == NodePortCheckStatus(nodePorts)
  {
    if !nodePorts.isFresh {
      return Unknown;
    }
    var used: set<int> := {};
    for i := 0 to |nodePorts.ports|
      invariant used == PortsInRange(nodePorts.ports[..i])
    {
      if NODE_PORT_MIN <= nodePorts.ports[i] <= NODE_PORT_MAX {
        used := used + {nodePorts.ports[i]};
      }
    }
    assert nodePorts.ports[..|nodePorts.ports|] == nodePorts.ports;
    status := if |used| >= NODE_PORT_MAX - NODE_PORT_MIN + 1 then Failed else Passed;
  }

  // ---- evaluation ----------------------------------------------------------------------------

  function DeviceRequests(devices: seq<Device>, hard: QuotaList): ResourceList {
    map r | r in Resolution.DeviceResources(devices) :: Requested(hard, r)
  }

  function ReadinessChecks(cell: CellSpec, status: CellStatus, class_: ClassSpec): seq<Check> {
    [ Check("ResolvedProfile", PassedIf(Resolution.Resolvable(cell.profile, class_.workloadHard), Failed)),
      Check("CellAvailable",
        PassedIf(status.phase == CellReady && status.managedCluster.joined && status.managedCluster.available, Unknown)),
      Check("OCMLeaseFresh", PassedIf(status.managedCluster.leaseFresh, Unknown)),
      Check("HostBaseline", PassedIf(status.provider.Ready(), Unknown)),
      Check("InventoryFresh", PassedIf(Conditions.IsTrue(status.conditions, INVENTORY_FRESH), Unknown)),
      Check("LockedVersions", VersionStatus(status.provider.k3kVersion)) ]
  }

  function ResourceChecks(cell: CellSpec, status: CellStatus, class_: ClassSpec): seq<Check> {
    var hard := class_.workloadHard;
    [ Check("CPU", CapacityStatus(InventoryAt(status.inventory, CPU), Required(hard, CPU))),
      Check("Memory", CapacityStatus(InventoryAt(status.inventory, MEMORY), Required(hard, MEMORY))),
      Check("EphemeralStorage", CapacityStatus(InventoryAt(status.inventory, EPHEMERAL), Required(hard, EPHEMERAL))),
      Check("Accelerators", AcceleratorStatus(status.nodes, cell.profile.name, DeviceRequests(cell.profile.devices, hard))),
      Check("HostQuota", PassedIf(QuotaPaired(hard), Failed)),
      Check("TopoLVM", StorageCheckStatus(status.storage, class_.storageClassName)),
      Check("NodePort", NodePortCheckStatus(status.nodePorts)) ]
  }

  function Checks(cell: CellSpec, status: CellStatus, class_: ClassSpec): seq<Check> {
    ReadinessChecks(cell, status, class_) +
    if Resolution.Resolvable(cell.profile, class_.workloadHard) then ResourceChecks(cell, status, class_) else []
  }

  function Evaluate(cell: CellSpec, status: CellStatus, class_: ClassSpec): Decision {
    Decide(Checks(cell, status, class_))
  }

  method HostQuotaCheck(hard: QuotaList) returns (status: CheckStatus)
    ensures status == PassedIf(QuotaPaired(hard), Failed)
  {
    var left := hard.Keys;
    while left != {}
      invariant left <= hard.Keys
      invariant forall key :: key in hard && key !in left && HasPrefix(key, Resolution.REQUESTS) ==>
        var limit := Resolution.LIMITS + TrimPrefix(key, Resolution.REQUESTS);
        limit in hard && hard[limit].milli == hard[key].milli
      decreases |left|
    {
      var key :| key in left;
      left := left - {key};
      if HasPrefix(key, Resolution.REQUESTS) {
        var limit := Resolution.LIMITS + TrimPrefix(key, Resolution.REQUESTS);
        if limit !in hard || hard[limit].milli != hard[key].milli {
          return Failed;
        }
      }
    }
    status := Passed;
  }

  method CapacityChecks(inventory: map<string, InventoryStatus>, requests: ResourceList) returns (r: seq<Check>)
    ensures r == [
      Check("CPU", CapacityStatus(InventoryAt(inventory, CPU), At(requests, CPU) + Reservation(CPU))),
      Check("Memory", CapacityStatus(InventoryAt(inventory, MEMORY), At(requests, MEMORY) + Reservation(MEMORY))),
      Check("EphemeralStorage", CapacityStatus(InventoryAt(inventory, EPHEMERAL), At(requests, EPHEMERAL) + Reservation(EPHEMERAL)))]
  {
    var names := [(CPU, "CPU"), (MEMORY, "Memory"), (EPHEMERAL, "EphemeralStorage")];
    r := [];
    for i := 0 to 3
      invariant |r| == i
      invariant forall j :: 0 <= j < i ==> r[j] == Check(names[j].1,
        CapacityStatus(InventoryAt(inventory, names[j].0), At(requests, names[j].0) + Reservation(names[j].0)))
    {
      var required := At(requests, names[i].0) + Reservation(names[i].0);
      r := r + [Check(names[i].1, CapacityStatus(InventoryAt(inventory, names[i].0), required))];
    }
  }

  method AcceleratorRequests(devices: seq<Device>, hard: QuotaList, requests: ResourceList) returns (r: ResourceList)
    requires forall resource :: At(requests, resource) == Requested(hard, resource)
    ensures r == DeviceRequests(devices, hard)
  {
    r := map[];
    for i := 0 to |devices|
      invariant r == DeviceRequests(devices[..i], hard)
    {
      var resource := devices[i].resourceName;
      assert Resolution.DeviceResources(devices[..i + 1]) == Resolution.DeviceResources(devices[..i]) + [resource];
      r := r[resource := At(requests, resource)];
    }
    assert devices[..|devices|] == devices;
  }

  method ComputeChecks(cell: CellSpec, status: CellStatus, class_: ClassSpec) returns (r: seq<Check>)
    ensures r == ResourceChecks(cell, status, class_)[..4]
    ensures r[..3] == [
      Check("CPU", CapacityStatus(InventoryAt(status.inventory, "cpu"), Amount(class_.workloadHard, "requests.cpu") + 600)),
      Check("Memory", CapacityStatus(InventoryAt(status.inventory, "memory"), Amount(class_.workloadHard, "requests.memory") + 1342177280000)),
      Check("EphemeralStorage", CapacityStatus(InventoryAt(status.inventory, "ephemeral-storage"), Amount(class_.workloadHard, "requests.ephemeral-storage")))]
  {
    RequiredAmounts(class_.workloadHard);
    var requests := EntitlementRequests(class_.workloadHard);
    r := CapacityChecks(status.inventory, requests);
    var accelerators := AcceleratorRequests(cell.profile.devices, class_.workloadHard, requests);
    var local := AcceleratorCheck(status.nodes, cell.profile.name, accelerators);
    r := r + [Check("Accelerators", local)];
  }

  /** A missing Cell or class leaves one Unknown check; otherwise the decision is Evaluate. */
  method EvaluatePlan(cell: Option<(CellSpec, CellStatus)>, class_: Option<ClassSpec>)
    returns (checks: seq<Check>, decision: Decision)
    ensures decision ==
      if cell.None? || class_.None? then Undecided else Evaluate(cell.value.0, cell.value.1, class_.value)
  {
    if cell.None? || class_.None? {
      var missing := [Check("References", Unknown)];
      assert missing[0].status == Unknown;
      checks, decision := Finalize(missing);
      return;
    }
    var spec, status, class_ := cell.value.0, cell.value.1, class_.value;
    var all := ReadinessChecks(spec, status, class_);
    if Resolution.Resolvable(spec.profile, class_.workloadHard) {
      var compute := ComputeChecks(spec, status, class_);
      var quota := HostQuotaCheck(class_.workloadHard);
      var ports := NodePortCheck(status.nodePorts);
      var rest := [Check("HostQuota", quota), Check("TopoLVM", StorageCheckStatus(status.storage, class_.storageClassName)),
                   Check("NodePort", ports)];
      assert compute + rest == ResourceChecks(spec, status, class_);
      all := all + (compute + rest);
    }
    assert all == Checks(spec, status, class_);
    checks, decision := Finalize(all);
  }

  // ---- what Accepted means about the stored status ---------------------------------------------

  predicate AllPassed(checks: seq<Check>) {
    forall i :: 0 <= i < |checks| ==> checks[i].status == Passed
  }

  /** Accepted means that the class resolves and every check passed. */
  lemma AcceptedIff(cell: CellSpec, status: CellStatus, class_: ClassSpec)
    ensures Evaluate(cell, status, class_) == Accepted <==>
      && Resolution.Resolvable(cell.profile, class_.workloadHard)
      && AllPassed(ReadinessChecks(cell, status, class_)) && AllPassed(ResourceChecks(cell, status, class_))
  {
    var readiness, resources := ReadinessChecks(cell, status, class_), ResourceChecks(cell, status, class_);
    var all := Checks(cell, status, class_);
    DecideAccepted(all);
    if Resolution.Resolvable(cell.profile, class_.workloadHard) {
      assert all == readiness + resources;
      PassedInParts(readiness, resources);
    } else {
      assert all[0] == readiness[0] && readiness[0].status == Failed;
    }
  }

  lemma DecideAccepted(checks: seq<Check>)
    ensures Decide(checks) == Accepted <==> checks != [] && AllPassed(checks)
  {
    if Decide(checks) == Accepted {
      forall i | 0 <= i < |checks| ensures checks[i].status == Passed {
        assert checks[i].status != Failed && checks[i].status != Unknown;
      }
    }
  }

  lemma PassedInParts(a: seq<Check>, b: seq<Check>)
    ensures AllPassed(a + b) <==> AllPassed(a) && AllPassed(b)
  {
    if AllPassed(a + b) {
      forall i | 0 <= i < |a| ensures a[i].status == Passed { assert (a + b)[i] == a[i]; }
      forall i | 0 <= i < |b| ensures b[i].status == Passed { assert (a + b)[|a| + i] == b[i]; }
    }
  }

  /** The resource checks one by one. */
  lemma ResourcesPassedIff(cell: CellSpec, status: CellStatus, class_: ClassSpec)
    ensures AllPassed(ResourceChecks(cell, status, class_)) <==>
      var hard := class_.workloadHard;
      && CapacityStatus(InventoryAt(status.inventory, CPU), Required(hard, CPU)) == Passed
      && CapacityStatus(InventoryAt(status.inventory, MEMORY), Required(hard, MEMORY)) == Passed
      && CapacityStatus(InventoryAt(status.inventory, EPHEMERAL), Required(hard, EPHEMERAL)) == Passed
      && AcceleratorStatus(status.nodes, cell.profile.name, DeviceRequests(cell.profile.devices, hard)) == Passed
      && QuotaPaired(hard)
      && StorageCheckStatus(status.storage, class_.storageClassName) == Passed
      && NodePortCheckStatus(status.nodePorts) == Passed
  {
    var checks := ResourceChecks(cell, status, class_);
    assert |checks| == 7;
    if AllPassed(checks) {
      assert checks[0].status == checks[1].status == checks[2].status == checks[3].status == Passed;
      assert checks[4].status == checks[5].status == checks[6].status == Passed;
    }
  }

  ghost predicate InRange(p: int) {
    NODE_PORT_MIN <= p <= NODE_PORT_MAX
  }

  ghost function Interval(low: int, high: int): (r: set<int>)
    requires low <= high
    ensures forall p :: p in r <==> low <= p < high
    ensures |r| == high - low
    decreases high - low
  {
    if low == high then {} else Interval(low, high - 1) + {high - 1}
  }

  /** Pigeonhole: the NodePort check passes exactly when a port of the range is free. */
  lemma NodePortPassesIffFree(nodePorts: NodePortStatus)
    requires nodePorts.isFresh
    ensures NodePortCheckStatus(nodePorts) == Passed <==> exists p :: InRange(p) && p !in nodePorts.ports
  {
    var range := Interval(NODE_PORT_MIN, NODE_PORT_MAX + 1);
    var used := PortsInRange(nodePorts.ports);
    assert used <= range;
    if exists p :: InRange(p) && p !in nodePorts.ports {
      var p :| InRange(p) && p !in nodePorts.ports;
      Sums.SubsetSize(used, range - {p});
    } else {
      assert forall p :: p in range ==> InRange(p);
      assert range <= used;
      Sums.SubsetSize(range, used);
    }
  }
}
