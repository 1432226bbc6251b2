/** Exactly when a plan is accepted and when it is rejected, on the stored status and the class, in amounts of milli-units
    (internal/controller/plan_evaluator.go:28-224, internal/platform/platform.go:21-66). */
module PlanMeaning {
  import opened Api
  import Conditions
  import Plan
  import Resolution
  import Text

  // ---- amounts -----------------------------------------------------------------------------------

  /** The inventory has an entry. */
  predicate Known(e: InventoryStatus) {
    e.allocatable != 0 || e.available != 0
  }

  predicate Enough(status: CellStatus, k: string, amount: int) {
    var e := InventoryAt(status.inventory, k);
    Known(e) && e.available >= amount
  }

  predicate Short(status: CellStatus, k: string, amount: int) {
    var e := InventoryAt(status.inventory, k);
    Known(e) && e.available < amount
  }

  // ---- the other resources -----------------------------------------------------------------------

  /** What a node of the profile has left of a device. */
  predicate LeftOn(n: NodeStatus, profile: string, device: string, amount: int) {
    n.ready && n.profile == profile && At(n.allocatable, device) - At(n.active, device) >= amount
  }

  predicate DeviceFits(cell: CellSpec, status: CellStatus, hard: QuotaList, device: string) {
    var amount := Plan.Amount(hard, "requests." + device);
    amount == 0 || exists j :: 0 <= j < |status.nodes| && LeftOn(status.nodes[j], cell.profile.name, device, amount)
  }

  predicate SomeNodeServes(cell: CellSpec, status: CellStatus) {
    exists j :: 0 <= j < |status.nodes| && status.nodes[j].ready && status.nodes[j].profile == cell.profile.name
  }

  predicate DevicesFit(cell: CellSpec, status: CellStatus, hard: QuotaList) {
    forall i :: 0 <= i < |cell.profile.devices| ==> DeviceFits(cell, status, hard, cell.profile.devices[i].resourceName)
  }

  lemma AcceleratorsMeaning(cell: CellSpec, status: CellStatus, hard: QuotaList)
    ensures var a := Plan.AcceleratorStatus(status.nodes, cell.profile.name, Plan.DeviceRequests(cell.profile.devices, hard));
      && (a == Plan.Passed <==> DevicesFit(cell, status, hard))
      && (a == Plan.Failed <==> !DevicesFit(cell, status, hard) && SomeNodeServes(cell, status))
  {
    var devices := cell.profile.devices;
    var requests := Plan.DeviceRequests(devices, hard);
    forall i | 0 <= i < |devices| ensures var r := devices[i].resourceName; r in requests && requests[r] == Plan.Amount(hard, "requests." + r) {
      assert Resolution.DeviceResources(devices)[i] == devices[i].resourceName;
    }
    forall r | r in requests ensures exists i :: 0 <= i < |devices| && devices[i].resourceName == r {
      var i :| 0 <= i < |devices| && Resolution.DeviceResources(devices)[i] == r;
    }
    forall r | r in requests ensures requests[r] != 0 ==>
      (Plan.FitsLocally(status.nodes, cell.profile.name, r, requests[r]) <==> DeviceFits(cell, status, hard, r)) {
      FitMeaning(status.nodes, cell.profile.name, r, requests[r]);
    }
  }

  lemma FitMeaning(nodes: seq<NodeStatus>, profile: string, device: string, amount: int)
    ensures Plan.FitsLocally(nodes, profile, device, amount) <==> exists j :: 0 <= j < |nodes| && LeftOn(nodes[j], profile, device, amount)
  {
    if Plan.FitsLocally(nodes, profile, device, amount) {
      var j :| 0 <= j < |nodes| && Plan.Serves(nodes[j], profile) && At(nodes[j].allocatable, device) - At(nodes[j].active, device) >= amount;
      assert LeftOn(nodes[j], profile, device, amount);
    }
    if exists j :: 0 <= j < |nodes| && LeftOn(nodes[j], profile, device, amount) {
      var j :| 0 <= j < |nodes| && LeftOn(nodes[j], profile, device, amount);
      assert Plan.Serves(nodes[j], profile);
    }
  }

  /** Every requested amount has an equal limit. */
  ghost predicate Paired(hard: QuotaList) {
    forall r: string :: "requests." + r in hard ==> "limits." + r in hard && hard["limits." + r].milli == hard["requests." + r].milli
  }

  lemma PairedMeaning(hard: QuotaList)
    ensures Plan.QuotaPaired(hard) <==> Paired(hard)
  {
    if Plan.QuotaPaired(hard) {
      forall r: string | "requests." + r in hard ensures "limits." + r in hard && hard["limits." + r].milli == hard["requests." + r].milli {
        var key := Resolution.REQUESTS + r;
        assert Text.HasPrefix(key, Resolution.REQUESTS) && Text.TrimPrefix(key, Resolution.REQUESTS) == r;
        assert key in hard && Resolution.LIMITS + r == "limits." + r;
      }
    }
    if Paired(hard) {
      forall key | key in hard && Resolution.REQUESTS <= key
        ensures var limit := Resolution.LIMITS + key[|Resolution.REQUESTS|..]; limit in hard && hard[limit].milli == hard[key].milli
      {
        assert "requests." + key[|Resolution.REQUESTS|..] == key;
      }
    }
  }

  /** The storage class has a known and fresh total, and some node reports free space. */
  predicate SpaceLeft(status: CellStatus, name: string) {
    name in status.storage && var s := status.storage[name];
    s.known && s.isFresh && s.free.Some?
    && exists n :: n in s.nodes && s.nodes[n].known && s.nodes[n].isFresh && s.nodes[n].free.Some? && s.nodes[n].free.value > 0
  }

  ghost predicate PortLeft(status: CellStatus) {
    exists p :: 30000 <= p <= 32767 && p !in status.nodePorts.ports
  }

  lemma PortsMeaning(status: CellStatus)
    ensures Plan.NodePortCheckStatus(status.nodePorts) == Plan.Passed <==> status.nodePorts.isFresh && PortLeft(status)
    ensures Plan.NodePortCheckStatus(status.nodePorts) == Plan.Failed <==> status.nodePorts.isFresh && !PortLeft(status)
  {
    if status.nodePorts.isFresh {
      Plan.NodePortPassesIffFree(status.nodePorts);
      assert PortLeft(status) <==> exists p :: Plan.InRange(p) && p !in status.nodePorts.ports by {
        if PortLeft(status) {
          var p :| 30000 <= p <= 32767 && p !in status.nodePorts.ports;
          assert Plan.InRange(p);
        }
      }
    }
  }

  // ---- the decisions -----------------------------------------------------------------------------

  /** The Cell is Ready, joined and available with a fresh lease, a complete baseline and a fresh inventory. */
  predicate CellUp(status: CellStatus) {
    && status.phase == CellReady && status.managedCluster.joined && status.managedCluster.available && status.managedCluster.leaseFresh
    && status.provider.namespaceReady && status.provider.crdsReady && status.provider.controllerReady && status.provider.cniReady
    && status.provider.topolvmReady && Conditions.IsTrue(status.conditions, "InventoryFresh")
  }

  lemma ReadinessMeaning(cell: CellSpec, status: CellStatus, class_: ClassSpec)
    ensures var checks := Plan.ReadinessChecks(cell, status, class_); var resolvable := Resolution.Resolvable(cell.profile, class_.workloadHard);
      && (Plan.AllPassed(checks) <==> resolvable && CellUp(status) && status.provider.k3kVersion == "v1.2.0")
      && (Plan.SomeCheck(checks, Plan.Failed) <==> !resolvable || (status.provider.k3kVersion != "" && status.provider.k3kVersion != "v1.2.0"))
  {
    var checks := Plan.ReadinessChecks(cell, status, class_);
    assert |checks| == 6 && |"v1.2.0"| != 0;
    assert Plan.AllPassed(checks) <==> checks[0].status == checks[1].status == checks[2].status == checks[3].status == checks[4].status == checks[5].status == Plan.Passed;
    assert Plan.SomeCheck(checks, Plan.Failed) <==> checks[0].status == Plan.Failed || checks[5].status == Plan.Failed;
  }

  /** Request plus reservation is there for each compute resource. */
  predicate ComputeEnough(status: CellStatus, hard: QuotaList) {
    && Enough(status, "cpu", Plan.Amount(hard, "requests.cpu") + 600)
    && Enough(status, "memory", Plan.Amount(hard, "requests.memory") + 1342177280000)
    && Enough(status, "ephemeral-storage", Plan.Amount(hard, "requests.ephemeral-storage"))
  }

  predicate ComputeShort(status: CellStatus, hard: QuotaList) {
    || Short(status, "cpu", Plan.Amount(hard, "requests.cpu") + 600)
    || Short(status, "memory", Plan.Amount(hard, "requests.memory") + 1342177280000)
    || Short(status, "ephemeral-storage", Plan.Amount(hard, "requests.ephemeral-storage"))
  }

  lemma ResourceFails(cell: CellSpec, status: CellStatus, class_: ClassSpec)
    ensures Plan.SomeCheck(Plan.ResourceChecks(cell, status, class_), Plan.Failed) <==>
      var hard := class_.workloadHard;
      || Plan.CapacityStatus(InventoryAt(status.inventory, CPU), Plan.Required(hard, CPU)) == Plan.Failed
      || Plan.CapacityStatus(InventoryAt(status.inventory, MEMORY), Plan.Required(hard, MEMORY)) == Plan.Failed
      || Plan.CapacityStatus(InventoryAt(status.inventory, EPHEMERAL), Plan.Required(hard, EPHEMERAL)) == Plan.Failed
      || Plan.AcceleratorStatus(status.nodes, cell.profile.name, Plan.DeviceRequests(cell.profile.devices, hard)) == Plan.Failed
      || !Plan.QuotaPaired(hard)
      || Plan.NodePortCheckStatus(status.nodePorts) == Plan.Failed
  {
    var checks := Plan.ResourceChecks(cell, status, class_);
    assert |checks| == 7;
    assert Plan.SomeCheck(checks, Plan.Failed) <==>
      || checks[0].status == Plan.Failed || checks[1].status == Plan.Failed || checks[2].status == Plan.Failed || checks[3].status == Plan.Failed
      || checks[4].status == Plan.Failed || checks[5].status == Plan.Failed || checks[6].status == Plan.Failed;
  }

  /** Exactly when a plan is accepted. */
  lemma AcceptedExactly(cell: CellSpec, status: CellStatus, class_: ClassSpec)
    ensures Plan.Evaluate(cell, status, class_) == Plan.Accepted <==>
      var hard := class_.workloadHard;
      && Resolution.Resolvable(cell.profile, hard) && CellUp(status) && status.provider.k3kVersion == "v1.2.0"
      && ComputeEnough(status, hard) && DevicesFit(cell, status, hard) && Paired(hard)
      && SpaceLeft(status, class_.storageClassName) && status.nodePorts.isFresh && PortLeft(status)
  {
    Plan.AcceptedIff(cell, status, class_);
    Plan.ResourcesPassedIff(cell, status, class_);
    ReadinessMeaning(cell, status, class_);
    Plan.RequiredAmounts(class_.workloadHard);
    AcceleratorsMeaning(cell, status, class_.workloadHard);
    PairedMeaning(class_.workloadHard);
    PortsMeaning(status);
  }

  /** Exactly when a plan is rejected: for a fact that is known and bad, never for one that is missing. */
  lemma RejectedExactly(cell: CellSpec, status: CellStatus, class_: ClassSpec)
    ensures Plan.Evaluate(cell, status, class_) == Plan.Rejected <==>
      var hard := class_.workloadHard;
      || !Resolution.Resolvable(cell.profile, hard)
      || (status.provider.k3kVersion != "" && status.provider.k3kVersion != "v1.2.0")
      || ComputeShort(status, hard)
      || (!DevicesFit(cell, status, hard) && SomeNodeServes(cell, status))
      || !Paired(hard)
      || (status.nodePorts.isFresh && !PortLeft(status))
  {
    var readiness, resources := Plan.ReadinessChecks(cell, status, class_), Plan.ResourceChecks(cell, status, class_);
    FailsInParts(readiness, resources);
    assert readiness + [] == readiness;
    ResourceFails(cell, status, class_);
    ReadinessMeaning(cell, status, class_);
    Plan.RequiredAmounts(class_.workloadHard);
    AcceleratorsMeaning(cell, status, class_.workloadHard);
    PairedMeaning(class_.workloadHard);
    PortsMeaning(status);
  }

  lemma FailsInParts(a: seq<Plan.Check>, b: seq<Plan.Check>)
    ensures Plan.SomeCheck(a + b, Plan.Failed) <==> Plan.SomeCheck(a, Plan.Failed) || Plan.SomeCheck(b, Plan.Failed)
  {
    var all := a + b;
    if Plan.SomeCheck(a, Plan.Failed) {
      var i :| 0 <= i < |a| && a[i].status == Plan.Failed;
      assert all[i].status == Plan.Failed;
    }
    if Plan.SomeCheck(b, Plan.Failed) {
      var i :| 0 <= i < |b| && b[i].status == Plan.Failed;
      assert all[|a| + i].status == Plan.Failed;
    }
  }
}
