/** A Cell on which the controller accepts a plan: one node of the profile with capacity, a TopoLVM class with space and no
    NodePort taken. Its status is what the first round of the Cell reconciler can store. */
module AcceptedCell {
  import opened Api
  import CellController
  import Conditions
  import Feasibility
  import Inventory
  import Plan
  import Projection
  import Resolution
  import Storage

  const PROFILE := MachineProfile("p", [])
  const SPEC := CellSpec("m", PROFILE)
  const AMOUNTS: ResourceList := map[CPU := 8000, MEMORY := 8_000_000_000_000, EPHEMERAL := 1000]
  const NODE := Node("n", "p", [("Ready", true)], AMOUNTS, AMOUNTS, map[Storage.CAPACITY_ANNOTATION + "00default" := Some(1000)])
  const DISK := Storage.StorageClass("s", Storage.TOPOLVM, "")
  const CLASSES: map<string, string> := map["s" := ""]

  /** One processor, requested and limited. */
  const HARD: QuotaList := map[Resolution.REQUESTS + CPU := Quantity(1000, DecimalSI), Resolution.LIMITS + CPU := Quantity(1000, DecimalSI)]
  const CLASS := ClassSpec(HARD, "s")

  // ---- the lists ---------------------------------------------------------------------------------

  const BASELINE := ProviderStatus("", true, true, true, true, true)

  const HOST := CellController.HostReads(
    CellController.Got([NODE]), Some(CellController.Got([])),
    Some(CellController.StorageReads(CellController.Got([]), true, CellController.Got([DISK]))), Some(CellController.Got([])))

  const ROUND := CellController.Round(
    Some((true, true)), CellController.LeaseFresh, CellController.Baseline(BASELINE), CellController.Got({}), CellController.Reader(HOST), 0)

  const LISTS := CellController.Lists(PROFILE, {}, [NODE], [], CLASSES, [], Some([]))

  lemma ListsAre()
    ensures CellController.AllRead(HOST) && CellController.ListsOf(HOST, PROFILE, {}) == LISTS
  {
    assert [DISK][..0] == [];
    assert Storage.TopolvmClasses([]) == map[];
    assert Storage.TopolvmClasses([DISK]) == map["s" := ""];
  }

  lemma NodeServes()
    ensures Inventory.ServesProfile(NODE, PROFILE)
    ensures CellController.Eligible([NODE], PROFILE) == {"n"}
  {
    assert NODE.readiness[0].0 == "Ready";
    assert [NODE][0] == NODE;
  }

  lemma DiskReports()
    ensures Storage.FreeTotal([NODE], {"n"}, "") == Some(1000) && Storage.ReportCount([NODE], {"n"}, "") == 1
    ensures Storage.FreeOn([NODE], {"n"}, "", "n") == Some(1000) && "n" in Storage.Reporting([NODE], {"n"}, "")
  {
    assert [NODE][..0] == [];
    assert Storage.NodeFree(NODE, "") == Some(1000);
    assert Storage.Reports([NODE][0], {"n"}, "");
  }

  lemma ListsAreComplete()
    ensures CellController.Complete(LISTS)
  {
    NodeServes();
    DiskReports();
    assert LISTS.nodes[0] == NODE;
    assert |{"n"}| == 1;
  }

  // ---- the stored status -------------------------------------------------------------------------

  const CONDITIONS := [
    Condition(CellController.PROVIDER_READY, true, "", 0), Condition(CellController.JOINED, true, "", 0),
    Condition(CellController.AVAILABLE, true, "", 0), Condition(Plan.INVENTORY_FRESH, true, "", 0)]

  function Entry(k: string): InventoryStatus {
    if k in AMOUNTS then InventoryStatus(AMOUNTS[k], AMOUNTS[k], 0, 0, AMOUNTS[k]) else NO_INVENTORY
  }

  const INVENTORY := map k | k in AMOUNTS :: Entry(k)

  const STORED_NODE := NodeStatus("n", "p", true, AMOUNTS, AMOUNTS, map[], map[])

  const READY := CellStatus(
    CellReady, CONDITIONS, ManagedClusterStatus(true, true, true), BASELINE.(k3kVersion := K3K_VERSION),
    [STORED_NODE], INVENTORY, Projection.StorageOf(CLASSES, [], [NODE], {"n"}), NodePortStatus([], true))

  const HISTORY := CellController.CellHistory(READY, Some(LISTS))

  lemma AmountsAreObserved(k: string)
    ensures Inventory.Contributes(NODE, PROFILE, k) <==> k in AMOUNTS
  {
    NodeServes();
  }

  lemma EntryIs(k: string)
    ensures Inventory.EntryOf([NODE], [], {}, PROFILE, k) == Entry(k) == InventoryAt(INVENTORY, k)
  {
    AmountsAreObserved(k);
    assert [NODE][..0] == [] && [NODE][0] == NODE;
    assert Inventory.CapacityOf([NODE], PROFILE, k) == Inventory.CapacityOf([], PROFILE, k) + if k in AMOUNTS then AMOUNTS[k] else 0;
    assert Inventory.AllocatableOf([NODE], PROFILE, k) == Inventory.AllocatableOf([], PROFILE, k) + if k in AMOUNTS then AMOUNTS[k] else 0;
    assert Inventory.Offered([NODE], PROFILE, k) <==> k in AMOUNTS;
  }

  lemma NodeIsDescribed()
    ensures Projection.NodeDescribed(STORED_NODE, NODE, [], {}, PROFILE)
  {
    NodeServes();
    assert Inventory.Observed(AMOUNTS, PROFILE.devices) == AMOUNTS;
  }

  lemma ReadyIsProjected()
    ensures CellController.Projected(READY, LISTS)
  {
    ListsAreComplete();
    NodeServes();
    forall k ensures InventoryAt(READY.inventory, k) == Inventory.EntryOf([NODE], [], {}, PROFILE, k) {
      EntryIs(k);
    }
    NodeIsDescribed();
    assert Projection.AllDescribed([STORED_NODE], [NODE], [], {}, PROFILE);
    assert CellController.PortsDescribed(READY.nodePorts, Some([]));
  }

  lemma {:induction false} FindAt(conditions: seq<Condition>, i: nat)
    requires i < |conditions| && forall j :: 0 <= j < i ==> conditions[j].kind != conditions[i].kind
    ensures Conditions.Find(conditions, conditions[i].kind) == Some(conditions[i])
  {
    if i > 0 {
      FindAt(conditions[1..], i - 1);
    }
  }

  lemma ConditionsAreTrue()
    ensures Conditions.IsTrue(CONDITIONS, CellController.PROVIDER_READY) && Conditions.IsTrue(CONDITIONS, CellController.JOINED)
    ensures Conditions.IsTrue(CONDITIONS, CellController.AVAILABLE) && Conditions.IsTrue(CONDITIONS, Plan.INVENTORY_FRESH)
  {
    FindAt(CONDITIONS, 0);
    FindAt(CONDITIONS, 1);
    FindAt(CONDITIONS, 2);
    FindAt(CONDITIONS, 3);
  }

  /** The first round of the Cell reconciler can store this status. */
  lemma ReadyIsReachable()
    ensures CellController.HistoryStep(CellController.CellHistory(CellController.INITIAL_STATUS, None), HISTORY, PROFILE, ROUND, false)
  {
    ListsAre();
    ListsAreComplete();
    ReadyIsProjected();
    ConditionsAreTrue();
  }

  // ---- the decision ------------------------------------------------------------------------------

  lemma ClassResolves()
    ensures Resolution.Resolvable(PROFILE, HARD)
  {
    assert Resolution.BaseName(Resolution.REQUESTS + CPU) == CPU;
    assert (Resolution.LIMITS + CPU)[0] == 'l' && Resolution.REQUESTS[0] == 'r';
    assert Resolution.BaseName(Resolution.LIMITS + CPU) == CPU;
    assert '/' !in CPU;
  }

  lemma QuotaIsPaired()
    ensures Plan.QuotaPaired(HARD)
    ensures Plan.Requested(HARD, CPU) == 1000 && Plan.Requested(HARD, MEMORY) == 0 && Plan.Requested(HARD, EPHEMERAL) == 0
  {
    var requests, limits := Resolution.REQUESTS + CPU, Resolution.LIMITS + CPU;
    assert requests[0] == 'r' && limits[0] == 'l';
    assert requests[|Resolution.REQUESTS|..] == CPU;
    assert |Resolution.REQUESTS + MEMORY| != |requests| && (Resolution.REQUESTS + MEMORY)[0] == 'r';
    assert |Resolution.REQUESTS + EPHEMERAL| != |requests| && (Resolution.REQUESTS + EPHEMERAL)[0] == 'r';
  }

  lemma CapacityPasses()
    ensures forall k :: k in {CPU, MEMORY, EPHEMERAL} ==> Plan.CapacityStatus(InventoryAt(INVENTORY, k), Plan.Required(HARD, k)) == Plan.Passed
  {
    QuotaIsPaired();
    KeysDiffer();
    EntryIs(CPU);
    EntryIs(MEMORY);
    EntryIs(EPHEMERAL);
  }

  lemma KeysDiffer()
    ensures CPU != MEMORY && CPU != EPHEMERAL && MEMORY != EPHEMERAL
  {
    assert CPU[0] == 'c' && MEMORY[0] == 'm' && EPHEMERAL[0] == 'e';
  }

  lemma StoragePasses()
    ensures Plan.StorageCheckStatus(READY.storage, "s") == Plan.Passed
  {
    DiskReports();
    var entry := READY.storage["s"];
    assert entry == Storage.EntryFor([], "s", [NODE], {"n"}, "");
    assert "n" in entry.nodes && entry.nodes["n"].free == Some(1000);
  }

  lemma ReadinessPasses()
    ensures Plan.AllPassed(Plan.ReadinessChecks(SPEC, READY, CLASS))
  {
    ClassResolves();
    ConditionsAreTrue();
  }

  lemma ResourcesPass()
    ensures Plan.AllPassed(Plan.ResourceChecks(SPEC, READY, CLASS))
  {
    QuotaIsPaired();
    CapacityPasses();
    StoragePasses();
    assert Plan.PortsInRange([]) == {};
    assert Plan.AcceleratorStatus([STORED_NODE], "p", Plan.DeviceRequests([], HARD)) == Plan.Passed;
    Plan.ResourcesPassedIff(SPEC, READY, CLASS);
  }

  /** The controller's own evaluation accepts: the decision that the lifecycle waits for does occur. */
  lemma PlanIsAccepted()
    ensures Plan.Evaluate(SPEC, READY, CLASS) == Plan.Accepted
    ensures CellController.Backed(HISTORY)
  {
    ClassResolves();
    ReadinessPasses();
    ResourcesPass();
    ReadyIsProjected();
    Plan.AcceptedIff(SPEC, READY, CLASS);
  }

  /** The decision does not look at the managed cluster. */
  lemma AcceptedAnywhere(home: string)
    ensures Plan.Evaluate(SPEC.(managedCluster := home), READY, CLASS) == Plan.Accepted
  {
    PlanIsAccepted();
    var moved := SPEC.(managedCluster := home);
    assert Plan.ReadinessChecks(moved, READY, CLASS) == Plan.ReadinessChecks(SPEC, READY, CLASS);
    assert Plan.ResourceChecks(moved, READY, CLASS) == Plan.ResourceChecks(SPEC, READY, CLASS);
  }

  /** So what soundness promises is not empty: the lists behind this accepted Cell do cover its plan. */
  lemma AcceptanceIsCovered()
    ensures Feasibility.Covered(LISTS, HARD) && Feasibility.PortFree(LISTS)
  {
    PlanIsAccepted();
    Feasibility.AcceptedIsSound(SPEC, HISTORY, CLASS);
  }
}
