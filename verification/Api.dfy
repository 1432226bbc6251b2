/** The objects of the KubeCell API that the rest of the model works on.
    Resource amounts are integers in milli-units; only the quota of a VirtualNodeClass keeps its
    printed format, because the profile fingerprint prints it. */
module Api {
  datatype Option<+T> = None | Some(value: T)

  datatype Result<+T> = Ok(value: T) | Err(error: string)

  // ---- resources ---------------------------------------------------------------------------

  type ResourceList = map<string, int>

  const CPU := "cpu"
  const MEMORY := "memory"
  const EPHEMERAL := "ephemeral-storage"

  /** Reading a missing key of a Go map gives the zero quantity. */
  function At(list: ResourceList, name: string): int {
    if name in list then list[name] else 0
  }

  function Max(a: int, b: int): int {
    if a >= b then a else b
  }

  datatype Format = DecimalSI | BinarySI | DecimalExponent

  datatype Quantity = Quantity(milli: int, format: Format) {
    predicate IsInteger() {
      milli % 1000 == 0
    }
  }

  type QuotaList = map<string, Quantity>

  /** Semantic equality of quota tables: same keys, same amounts, formats ignored. */
  predicate SemanticEqual(a: QuotaList, b: QuotaList) {
    a.Keys == b.Keys && forall k :: k in a ==> a[k].milli == b[k].milli
  }

  // ---- platform constants ------------------------------------------------------------------

  const K3K_VERSION := "v1.2.0"
  const CHILD_K3S_VERSION := "v1.34.2+k3s1"
  const CHILD_K3K_SPEC := "v1.34.2-k3s1"
  const PROFILE_LABEL := "hardware.kubecell.io/profile"
  const INGRESS_CLASS := "kubecell"
  const NODE_PORT_MIN := 30000
  const NODE_PORT_MAX := 32767

  const CONTROL_PLANE_RESERVATION: ResourceList := map[CPU := 500, MEMORY := 1073741824000]
  const REFLECTED_SYSTEM_RESERVATION: ResourceList := map[CPU := 100, MEMORY := 268435456000]

  // ---- Cell and VirtualNodeClass ------------------------------------------------------------

  datatype Device = Device(name: string, resourceName: string)

  datatype MachineProfile = MachineProfile(name: string, devices: seq<Device>)

  datatype CellSpec = CellSpec(managedCluster: string, profile: MachineProfile)

  datatype ClassSpec = ClassSpec(workloadHard: QuotaList, storageClassName: string)

  datatype CellPhase = CellPending | CellReady | CellDegraded | CellDeleting

  datatype Condition = Condition(kind: string, status: bool, reason: string, transitionTime: int)

  datatype NodeStatus = NodeStatus(
    name: string, profile: string, ready: bool,
    capacity: ResourceList, allocatable: ResourceList, active: ResourceList, pending: ResourceList)

  datatype InventoryStatus = InventoryStatus(
    capacity: int, allocatable: int, requested: int, pending: int, available: int)

  datatype StorageNode = StorageNode(allocatedPV: int, free: Option<int>, known: bool, isFresh: bool)

  datatype StorageStatus = StorageStatus(
    allocatedPV: int, nodes: map<string, StorageNode>, free: Option<int>, known: bool, isFresh: bool)

  datatype NodePortStatus = NodePortStatus(ports: seq<int>, isFresh: bool)

  datatype ManagedClusterStatus = ManagedClusterStatus(joined: bool, available: bool, leaseFresh: bool)

  datatype ProviderStatus = ProviderStatus(
    k3kVersion: string, namespaceReady: bool, crdsReady: bool, controllerReady: bool, cniReady: bool, topolvmReady: bool)
  {
    predicate Ready() {
      namespaceReady && crdsReady && controllerReady && cniReady && topolvmReady
    }
  }

  datatype CellStatus = CellStatus(
    phase: CellPhase, conditions: seq<Condition>,
    managedCluster: ManagedClusterStatus, provider: ProviderStatus,
    nodes: seq<NodeStatus>, inventory: map<string, InventoryStatus>,
    storage: map<string, StorageStatus>, nodePorts: NodePortStatus)

  /** The value of a missing inventory entry. */
  const NO_INVENTORY := InventoryStatus(0, 0, 0, 0, 0)

  function InventoryAt(inventory: map<string, InventoryStatus>, name: string): InventoryStatus {
    if name in inventory then inventory[name] else NO_INVENTORY
  }

  // ---- host lists ---------------------------------------------------------------------------

  datatype PodPhase = PodPending | PodRunning | PodSucceeded | PodFailed | PodUnknown

  /** A host Pod as the inventory sees it; `cluster` is its k3k.io/clusterName label ("" if absent). */
  datatype Pod = Pod(
    cluster: string, phase: PodPhase, nodeName: string,
    containers: seq<ResourceList>, initContainers: seq<ResourceList>, overhead: ResourceList)

  /** A host Node; `readiness` lists its conditions in order as (type, status is True), and an annotation
      holds the quantity its text parses to, if it does. */
  datatype Node = Node(
    name: string, profileLabel: string, readiness: seq<(string, bool)>,
    capacity: ResourceList, allocatable: ResourceList, annotations: map<string, Option<int>>)
}
