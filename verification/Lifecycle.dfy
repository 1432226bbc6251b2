/** The VirtualCluster lifecycle as a state machine (internal/controller/virtualcluster_controller.go).
    Every API call of a reconcile or deletion round, read or write, is one step of the single worker; between any two
    steps the round may crash and the user, the OCM agent, the Cell reconciler, the admission webhooks and third
    parties may act. Disabled actions leave the world as it is. */
module Lifecycle {
  import opened Api
  import opened HostObjects
  import opened Resolution
  import CellController
  import Labels
  import Names
  import Plan

  // ---- objects -----------------------------------------------------------------------------------

  /** Fixed for one VirtualCluster name: its coordinates, its Cell's name and the pure functions that its rounds call. */
  datatype Config = Config(
    namespace: string, name: string, cellName: string,
    names: string -> Names.DerivedNames,
    resolvable: (CellSpec, ClassSpec) -> bool,
    resolve: (string, string, CellSpec, string, ClassSpec) -> Snapshot,
    evaluate: (CellSpec, CellStatus, ClassSpec) -> Plan.Decision)

  /** The functions of the controller. */
  ghost function ConfigFor(codec: Codec, namespace: string, name: string, cellName: string): Config {
    Config(
      namespace, name, cellName,
      uid => Names.NamesFor(namespace, name, uid),
      (cell: CellSpec, class_: ClassSpec) => Resolvable(cell.profile, class_.workloadHard),
      (uid, cellUid, cell, classUid, class_) =>
        SnapshotOf(codec, cellUid, cell, classUid, class_)
          .(hostNamespace := Names.NamesFor(namespace, name, uid).hostNamespace, k3kCluster := Names.NamesFor(namespace, name, uid).k3kCluster),
      (cell, status, class_) => Plan.Evaluate(cell, status, class_))
  }

  /** What the protocol needs of them. */
  ghost predicate Usable(cfg: Config) {
    && (forall uid ::
      var n := cfg.names(uid);
      n.hostNamespace != "" && n.foundationWork != "" && n.instanceWork != "" && n.foundationWork != n.instanceWork)
    && (forall uid, cellUid, cell, classUid, class_ ::
      var s := cfg.resolve(uid, cellUid, cell, classUid, class_);
      s.managedCluster == cell.managedCluster && s.hostNamespace == cfg.names(uid).hostNamespace
      && s.cellUid == cellUid && s.classUid == classUid && s.machineProfile == cell.profile.name
      && s.acceleratorKeys == DeviceResources(cell.profile.devices))
  }

  lemma ControllerResolves(
      codec: Codec, namespace: string, name: string, cellName: string, uid: string, cellUid: string, cell: CellSpec, classUid: string, class_: ClassSpec)
    ensures var cfg := ConfigFor(codec, namespace, name, cellName); var s := cfg.resolve(uid, cellUid, cell, classUid, class_);
      && s.managedCluster == cell.managedCluster && s.hostNamespace == cfg.names(uid).hostNamespace
      && s.cellUid == cellUid && s.classUid == classUid && s.machineProfile == cell.profile.name
      && s.acceleratorKeys == DeviceResources(cell.profile.devices)
  {
  }

  lemma ControllerNames(codec: Codec, namespace: string, name: string, cellName: string, uid: string)
    ensures var n := ConfigFor(codec, namespace, name, cellName).names(uid);
      n.hostNamespace != "" && n.foundationWork != "" && n.instanceWork != "" && n.foundationWork != n.instanceWork
  {
    Names.NamesAreThere(namespace, name, uid);
  }

  lemma ControllerIsUsable(codec: Codec, namespace: string, name: string, cellName: string)
    ensures Usable(ConfigFor(codec, namespace, name, cellName))
  {
    var cfg := ConfigFor(codec, namespace, name, cellName);
    forall uid ensures var n := cfg.names(uid);
      n.hostNamespace != "" && n.foundationWork != "" && n.instanceWork != "" && n.foundationWork != n.instanceWork
    {
      ControllerNames(codec, namespace, name, cellName, uid);
    }
    forall uid, cellUid, cell, classUid, class_ ensures var s := cfg.resolve(uid, cellUid, cell, classUid, class_);
      && s.managedCluster == cell.managedCluster && s.hostNamespace == cfg.names(uid).hostNamespace
      && s.cellUid == cellUid && s.classUid == classUid && s.machineProfile == cell.profile.name
      && s.acceleratorKeys == DeviceResources(cell.profile.devices)
    {
      ControllerResolves(codec, namespace, name, cellName, uid, cellUid, cell, classUid, class_);
    }
  }

  datatype Phase = Pending | Provisioning | Ready | Degraded | Deleting | Failed

  datatype Child = Child(api: bool, node: bool, storage: bool)

  const NO_CHILD := Child(false, false, false)
  const FULL_CHILD := Child(true, true, true)

  /** `observed` is history: whether the observation that last set `child` succeeded. */
  datatype Status = Status(phase: Phase, resolved: Snapshot, child: Child, observed: bool)

  datatype Cluster = Cluster(uid: string, version: nat, deleting: bool, finalizer: bool, status: Status)

  datatype WorkSpec =
    | FoundationSpec(resolved: Snapshot, addresses: seq<string>)
    | InstanceSpec(resolved: Snapshot, addresses: seq<string>, mirrored: seq<HostObject>)
    | OtherSpec(content: string)

  datatype Work = Work(labels: Labels.LabelMap, spec: WorkSpec, applied: bool, degraded: bool, deleting: bool) {
    function Uid(): string { Labels.Get(labels, Labels.ClusterUid) }
  }

  /** Namespace (the managed cluster) and name. */
  type Key = (string, string)

  /** `dropping` is the Cell reconciler's: it has listed no cluster of the deleted Cell and is about to remove the finalizer. */
  datatype Cell = Cell(
    uid: string, spec: CellSpec, history: CellController.CellHistory, finalizer: bool, deleting: bool, dropping: bool)
  {
    function Status(): CellStatus { history.status }
  }

  datatype Class = Class(uid: string, spec: ClassSpec)

  /** `issued` are the UIDs this name has had; `secrets` maps a Secret name to its UID label. */
  datatype World = World(
    vc: Option<Cluster>, issued: set<string>, cell: Option<Cell>, class_: Option<Class>,
    works: map<Key, Work>, secrets: map<string, string>, worker: Worker)

  // ---- the worker --------------------------------------------------------------------------------

  /** What a reconcile round carries from its reads. */
  datatype Round = Round(cluster: Cluster, cell: Cell, class_: Class, resolved: Snapshot, addresses: seq<string>)

  /** The Works a round has read. */
  datatype Gate = Gate(foundation: Work, instance: Option<Work>)

  /** What a round is about to put into the Instance Work, and how it came to that. */
  datatype Intent = Intent(mirrored: seq<HostObject>, observedOk: bool, mirrorOk: bool)

  /** The next call of a round whose plan was accepted. */
  datatype Stage =
    | CheckFoundation
    | WriteFoundation(patch: bool)
    | ReadFoundation
    | ReadInstance(passed: Work)
    | ObserveChild(gate: Gate)
    | PublishSecret(gate: Gate, client: bool)
    | CollectMirror(gate: Gate, client: bool)
    | CheckInstance(gate: Gate, intent: Intent)
    | WriteInstance(gate: Gate, intent: Intent, patch: bool)
    | RefreshInstance

  /** The next call of a deletion round. */
  datatype Task =
    | CheckSecret
    | DeleteSecret
    | Locate
    | FindInstance(home: string)
    | FindFoundation(home: string, instance: Option<Work>)
    | DeleteWork(home: string, key: Key)
    | RemoveFinalizer(home: string)

  /** The call the worker is about to make. `cluster` is its copy of the object. */
  datatype Worker =
    | Idle
    | AddFinalizer(cluster: Cluster)
    | ReadCell(cluster: Cluster)
    | ReadClass(cluster: Cluster, cell: Cell)
    | Provision(round: Round, stage: Stage)
    | SaveStatus(cluster: Cluster)
    | Cleanup(cluster: Cluster, task: Task)
  {
    /** The copy of the cluster the worker holds. */
    function Copy(): Cluster
      requires !Idle?
    {
      if Provision? then round.cluster else cluster
    }
  }

  // ---- outside answers ---------------------------------------------------------------------------

  datatype Endpoint = NoEndpoint | BadEndpoint | GoodEndpoint

  datatype Probe =
    | NoObserver
    | ObserverUnavailable
    | ProbeFailed
    | Probed(child: Child, endpoint: Endpoint, client: bool)

  datatype MirrorRead = MirrorFailed | Mirrored(objects: seq<HostObject>)

  /** What the world outside the API server answers to one step; `fails` makes the step's API call fail, and `lingers`
      says whether a deleted Work waits for the agent. */
  datatype Answer = Answer(
    fails: bool, addresses: seq<string>, probe: Probe, podsRead: bool, mirror: MirrorRead, lingers: bool)

  datatype UserAction = CreateCluster(uid: string) | DeleteCluster | TouchCluster

  /** What administrators, the Cell reconciler and the Cell webhook do to the Cell. */
  datatype CellAction =
    | CreateCell(cellUid: string, cellSpec: CellSpec)
    | EditCell(cellSpec: CellSpec)
    | DeleteCell
    | FinalizeCell
    | SaveCell(history: CellController.CellHistory, profile: MachineProfile, cellRound: CellController.Round, wasDeleting: bool)
    | ListClusters
    | DropCell

  datatype ClassAction = CreateClass(classUid: string, classSpec: ClassSpec) | EditClass(classSpec: ClassSpec) | DeleteClass

  /** What the OCM agent, the garbage collector and third parties do to Works and Secrets. */
  datatype ObjectAction =
    | ReportWork(key: Key, applied: bool, degraded: bool, deleting: bool)
    | RemoveWork(key: Key)
    | RemoveSecret(secret: string)
    | PlaceWork(key: Key, work: Work)
    | PlaceSecret(secret: string, owner: string)

  datatype Action = Step(answer: Answer) | Crash | User(user: UserAction) | OnCell(onCell: CellAction) | OnClass(onClass: ClassAction) | OnObject(onObject: ObjectAction)

  // ---- names and ownership -----------------------------------------------------------------------

  function FoundationKey(cfg: Config, home: string, uid: string): Key {
    (home, cfg.names(uid).foundationWork)
  }

  function InstanceKey(cfg: Config, home: string, uid: string): Key {
    (home, cfg.names(uid).instanceWork)
  }

  function SecretName(cfg: Config, uid: string): string {
    cfg.names(uid).adminKubeconfig
  }

  function WorkLabels(cfg: Config, uid: string, resolved: Snapshot): Labels.LabelMap {
    Labels.OwnedHostLabels(cfg.cellName, cfg.namespace, cfg.name, uid, resolved.profileHash)
  }

  /** ValidateWorkReference and MatchesOwnedHostLabels before a patch. */
  predicate MayPatch(cfg: Config, work: Work, uid: string) {
    work.Uid() == uid && Labels.MatchesOwnedHostLabels(work.labels, cfg.cellName, cfg.namespace, cfg.name, uid)
  }

  function FindWork(works: map<Key, Work>, key: Key): Option<Work> {
    if key.0 != "" && key.1 != "" && key in works then Some(works[key]) else None
  }

  /** BuildDeletionPlan blocks on a Work of another UID. */
  predicate Blocked(instance: Option<Work>, foundation: Option<Work>, uid: string) {
    (instance.Some? && (uid == "" || instance.value.Uid() != uid)) || (foundation.Some? && (uid == "" || foundation.value.Uid() != uid))
  }

  /** Create fails on an existing object; a forced apply creates a missing one and keeps status and foreign labels. */
  function PutWork(works: map<Key, Work>, key: Key, labels: Labels.LabelMap, spec: WorkSpec, patch: bool): Option<map<Key, Work>> {
    if key !in works then Some(works[key := Work(labels, spec, false, false, false)])
    else if patch then Some(works[key := works[key].(labels := works[key].labels + labels, spec := spec)])
    else None
  }

  // ---- resolution --------------------------------------------------------------------------------

  function ResolvedFor(cfg: Config, uid: string, cell: Cell, class_: Class): Snapshot {
    cfg.resolve(uid, cell.uid, cell.spec, class_.uid, class_.spec)
  }

  // ---- a reconcile round -------------------------------------------------------------------------

  function WithPhase(c: Cluster, phase: Phase): Cluster {
    c.(status := c.status.(phase := phase))
  }

  /** The end of a round that got through: the phase follows the child flags. */
  function Finished(c: Cluster): Worker {
    SaveStatus(WithPhase(c, if c.status.child == FULL_CHILD then Ready else Provisioning))
  }

  function StartRound(vc: Option<Cluster>): Worker {
    if vc.None? then Idle
    else if vc.value.deleting then (if vc.value.finalizer then Cleanup(vc.value, CheckSecret) else Idle)
    else if vc.value.finalizer then ReadCell(vc.value) else AddFinalizer(vc.value)
  }

  /** The snapshot is taken once, when the stored one is still empty. */
  function TakeSnapshot(c: Cluster, resolved: Snapshot): Cluster {
    if c.status.resolved.hostNamespace == "" then c.(status := c.status.(resolved := resolved)) else c
  }

  /** After both references are read: everything up to the first Work write, or the status the round ends with. */
  function Evaluated(cfg: Config, c: Cluster, cell: Cell, class_: Class, addresses: seq<string>): Worker {
    var resolved := ResolvedFor(cfg, c.uid, cell, class_);
    if cell.Status().phase != CellReady then SaveStatus(WithPhase(c, Degraded))
    else if !cfg.resolvable(cell.spec, class_.spec) then SaveStatus(WithPhase(c, Failed))
    else if c.status.resolved.hostNamespace != "" && !SameProvider(c.status.resolved, resolved) then SaveStatus(WithPhase(c, Failed))
    else
      var c := TakeSnapshot(c, resolved);
      match cfg.evaluate(cell.spec, cell.Status(), class_.spec)
      case Rejected => SaveStatus(WithPhase(c, Failed))
      case Undecided => SaveStatus(WithPhase(c, Degraded))
      case Accepted =>
        if addresses == [] then SaveStatus(c) else Provision(Round(c, cell, class_, resolved, addresses), CheckFoundation)
  }

  /** What follows the child probe of an applied Instance Work. */
  function AfterProbe(r: Round, gate: Gate, probe: Probe): Worker
    requires probe.ProbeFailed? || probe.Probed?
  {
    var status := r.cluster.status;
    if probe.ProbeFailed? then
      SaveStatus(r.cluster.(status := status.(child := NO_CHILD, observed := false,
                                              phase := if status.phase == Ready then Degraded else status.phase)))
    else
      var r := r.(cluster := r.cluster.(status := status.(child := probe.child, observed := true)));
      match probe.endpoint
      case BadEndpoint => SaveStatus(r.cluster)
      case GoodEndpoint => Provision(r, PublishSecret(gate, probe.client))
      case NoEndpoint => Provision(r, CollectMirror(gate, probe.client))
  }

  /** Placements are read when the child is up, then the mirror, and the Instance Work is written only when safe. */
  function AfterMirror(r: Round, gate: Gate, client: bool, answer: Answer): Worker {
    var child := r.cluster.status.child;
    if child.api && child.node && !answer.podsRead then SaveStatus(r.cluster)
    else if child.api && client && answer.mirror.Mirrored? then Provision(r, CheckInstance(gate, Intent(answer.mirror.objects, true, true)))
    else if gate.instance.None? then Provision(r, CheckInstance(gate, Intent([], true, false)))
    else Finished(r.cluster)
  }

  /** The worker's move and what it leaves of the Works and Secrets. */
  datatype Outcome = Outcome(works: map<Key, Work>, secrets: map<string, string>, worker: Worker)

  /** createOrUpdateWork up to its ownership check. */
  function CheckWork(cfg: Config, works: map<Key, Work>, key: Key, uid: string): Option<bool> {
    if key !in works then Some(false) else if MayPatch(cfg, works[key], uid) then Some(true) else None
  }

  function FoundationStep(cfg: Config, works: map<Key, Work>, secrets: map<string, string>, r: Round, stage: Stage, answer: Answer): Outcome
    requires stage.CheckFoundation? || stage.WriteFoundation? || stage.ReadFoundation?
  {
    var key := FoundationKey(cfg, r.cell.spec.managedCluster, r.cluster.uid);
    match stage
    case CheckFoundation =>
      var check := CheckWork(cfg, works, key, r.cluster.uid);
      Outcome(works, secrets, if answer.fails || check.None? then Idle else Provision(r, WriteFoundation(check.value)))
    case WriteFoundation(patch) =>
      var put := PutWork(works, key, WorkLabels(cfg, r.cluster.uid, r.resolved), FoundationSpec(r.resolved, r.addresses), patch);
      if answer.fails || put.None? then Outcome(works, secrets, Idle) else Outcome(put.value, secrets, Provision(r, ReadFoundation))
    case ReadFoundation =>
      Outcome(works, secrets,
        if answer.fails || key !in works then SaveStatus(r.cluster)
        else if works[key].degraded then SaveStatus(WithPhase(r.cluster, Degraded))
        else if !works[key].applied then SaveStatus(WithPhase(r.cluster, Provisioning))
        else Provision(r, ReadInstance(works[key])))
  }

  function ObservationStep(cfg: Config, works: map<Key, Work>, secrets: map<string, string>, r: Round, stage: Stage, answer: Answer): Outcome
    requires stage.ReadInstance? || stage.ObserveChild? || stage.PublishSecret? || stage.CollectMirror?
  {
    match stage
    case ReadInstance(foundation) =>
      var key := InstanceKey(cfg, r.cell.spec.managedCluster, r.cluster.uid);
      Outcome(works, secrets,
        if answer.fails then Idle
        else if key in works && works[key].degraded then SaveStatus(WithPhase(r.cluster, Degraded))
        else Provision(r, ObserveChild(Gate(foundation, if key in works then Some(works[key]) else None))))
    case ObserveChild(gate) =>
      Outcome(works, secrets,
        if answer.probe.ObserverUnavailable? then SaveStatus(r.cluster)
        else if gate.instance.Some? && gate.instance.value.applied && !answer.probe.NoObserver? then AfterProbe(r, gate, answer.probe)
        else if gate.instance.None? then Provision(r, CheckInstance(gate, Intent([], false, false)))
        else Finished(r.cluster))
    case PublishSecret(gate, client) =>
      if answer.fails then Outcome(works, secrets, Idle)
      else Outcome(works, secrets[SecretName(cfg, r.cluster.uid) := r.cluster.uid], Provision(r, CollectMirror(gate, client)))
    case CollectMirror(gate, client) => Outcome(works, secrets, AfterMirror(r, gate, client, answer))
  }

  function InstanceStep(cfg: Config, works: map<Key, Work>, secrets: map<string, string>, r: Round, stage: Stage, answer: Answer): Outcome
    requires stage.CheckInstance? || stage.WriteInstance? || stage.RefreshInstance?
  {
    var key := InstanceKey(cfg, r.cell.spec.managedCluster, r.cluster.uid);
    match stage
    case CheckInstance(gate, intent) =>
      var check := CheckWork(cfg, works, key, r.cluster.uid);
      Outcome(works, secrets, if answer.fails || check.None? then Idle else Provision(r, WriteInstance(gate, intent, check.value)))
    case WriteInstance(gate, intent, patch) =>
      var put := PutWork(works, key, WorkLabels(cfg, r.cluster.uid, r.resolved), InstanceSpec(r.resolved, r.addresses, intent.mirrored), patch);
      if answer.fails || put.None? then Outcome(works, secrets, Idle) else Outcome(put.value, secrets, Provision(r, RefreshInstance))
    case RefreshInstance =>
      Outcome(works, secrets, if answer.fails || key !in works then SaveStatus(r.cluster) else Finished(r.cluster))
  }

  function ProvisionStep(cfg: Config, works: map<Key, Work>, secrets: map<string, string>, r: Round, stage: Stage, answer: Answer): Outcome {
    if stage.CheckFoundation? || stage.WriteFoundation? || stage.ReadFoundation? then FoundationStep(cfg, works, secrets, r, stage, answer)
    else if stage.CheckInstance? || stage.WriteInstance? || stage.RefreshInstance? then InstanceStep(cfg, works, secrets, r, stage, answer)
    else ObservationStep(cfg, works, secrets, r, stage, answer)
  }

  // ---- a deletion round --------------------------------------------------------------------------

  /** Everything before the finalizer is removed. */
  function CleanupStep(cfg: Config, w: World, c: Cluster, task: Task, answer: Answer): Outcome
    requires !task.RemoveFinalizer?
  {
    match task
    case CheckSecret =>
      var name := SecretName(cfg, c.uid);
      Outcome(w.works, w.secrets,
        if answer.fails then Idle
        else if name !in w.secrets then Cleanup(c, Locate)
        else if w.secrets[name] != c.uid then Idle
        else Cleanup(c, DeleteSecret))
    case DeleteSecret =>
      if answer.fails then Outcome(w.works, w.secrets, Idle)
      else Outcome(w.works, w.secrets - {SecretName(cfg, c.uid)}, Cleanup(c, Locate))
    case Locate =>
      Outcome(w.works, w.secrets,
        if c.status.resolved.managedCluster != "" then Cleanup(c, FindInstance(c.status.resolved.managedCluster))
        else if answer.fails || w.cell.None? then SaveStatus(WithPhase(c, Deleting))
        else Cleanup(c, FindInstance(w.cell.value.spec.managedCluster)))
    case FindInstance(home) =>
      Outcome(w.works, w.secrets,
        if answer.fails then Idle else Cleanup(c, FindFoundation(home, FindWork(w.works, InstanceKey(cfg, home, c.uid)))))
    case FindFoundation(home, instance) =>
      var foundation := FindWork(w.works, FoundationKey(cfg, home, c.uid));
      Outcome(w.works, w.secrets,
        if answer.fails then Idle
        else if Blocked(instance, foundation, c.uid) then SaveStatus(WithPhase(c, Deleting))
        else if instance.Some? then Cleanup(c, DeleteWork(home, InstanceKey(cfg, home, c.uid)))
        else if foundation.Some? then Cleanup(c, DeleteWork(home, FoundationKey(cfg, home, c.uid)))
        else Cleanup(c, RemoveFinalizer(home)))
    case DeleteWork(home, key) =>
      if answer.fails then Outcome(w.works, w.secrets, Idle)
      else Outcome(RequestDeletion(w.works, key, answer.lingers), w.secrets, SaveStatus(WithPhase(c, Deleting)))
  }

  function RequestDeletion(works: map<Key, Work>, key: Key, lingers: bool): map<Key, Work> {
    if key !in works then works
    else if lingers then works[key := works[key].(deleting := true)]
    else works - {key}
  }

  // ---- one step of the worker --------------------------------------------------------------------

  /** An update with optimistic locking reaches only the version that was read. */
  predicate Current(w: World, c: Cluster) {
    w.vc.Some? && w.vc.value.uid == c.uid && w.vc.value.version == c.version
  }

  function WithOutcome(w: World, o: Outcome): World {
    w.(works := o.works, secrets := o.secrets, worker := o.worker)
  }

  function RunStep(cfg: Config, w: World, answer: Answer): World {
    match w.worker
    case Idle => w.(worker := StartRound(w.vc))
    case AddFinalizer(c) =>
      if answer.fails || !Current(w, c) then w.(worker := Idle)
      else
        var updated := w.vc.value.(finalizer := true, version := c.version + 1);
        w.(vc := Some(updated), worker := ReadCell(updated))
    case ReadCell(c) =>
      w.(worker := if answer.fails || w.cell.None? then Idle else ReadClass(c, w.cell.value))
    case ReadClass(c, cell) =>
      w.(worker := if answer.fails || w.class_.None? then Idle else Evaluated(cfg, c, cell, w.class_.value, answer.addresses))
    case Provision(r, stage) => WithOutcome(w, ProvisionStep(cfg, w.works, w.secrets, r, stage, answer))
    case SaveStatus(c) =>
      if answer.fails || w.vc.None? then w.(worker := Idle)
      else w.(vc := Some(w.vc.value.(status := c.status, version := w.vc.value.version + 1)), worker := Idle)
    case Cleanup(c, task) =>
      if !task.RemoveFinalizer? then WithOutcome(w, CleanupStep(cfg, w, c, task, answer))
      else if answer.fails || !Current(w, c) then w.(worker := Idle)
      else w.(vc := None, worker := Idle)
  }

  // ---- everyone else -----------------------------------------------------------------------------

  /** isCellReferenced and isClassReferenced ignore clusters that are being deleted. */
  predicate Referenced(vc: Option<Cluster>) {
    vc.Some? && !vc.value.deleting
  }

  predicate ValidCell(spec: CellSpec) {
    spec.managedCluster != "" && spec.profile.name != ""
  }

  predicate CellEditAllowed(referenced: bool, before: CellSpec, after: CellSpec) {
    ValidCell(after) && (referenced ==>
      before.managedCluster == after.managedCluster && before.profile.name == after.profile.name && before.profile.devices == after.profile.devices)
  }

  predicate ClassEditAllowed(referenced: bool, before: ClassSpec, after: ClassSpec) {
    referenced ==> SemanticEqual(before.workloadHard, after.workloadHard) && before.storageClassName == after.storageClassName
  }

  predicate FreshUid(w: World, uid: string) {
    uid != "" && uid !in w.issued
    && (forall k :: k in w.works ==> w.works[k].Uid() != uid) && (forall s :: s in w.secrets ==> w.secrets[s] != uid)
  }

  const INITIAL_STATUS := Status(Pending, NO_SNAPSHOT, NO_CHILD, false)

  function UserActs(w: World, a: UserAction): World {
    match a
    case CreateCluster(uid) =>
      if w.vc.None? && FreshUid(w, uid) then w.(vc := Some(Cluster(uid, 0, false, false, INITIAL_STATUS)), issued := w.issued + {uid}) else w
    case DeleteCluster =>
      w.(vc := if w.vc.Some? && w.vc.value.finalizer then Some(w.vc.value.(deleting := true, version := w.vc.value.version + 1)) else None)
    case TouchCluster =>
      w.(vc := if w.vc.Some? then Some(w.vc.value.(version := w.vc.value.version + 1)) else None)
  }

  /** A deleted Cell goes in two steps, a list of its clusters and an update that any other write of the Cell defeats. */
  ghost function CellAfter(cell: Option<Cell>, vc: Option<Cluster>, a: CellAction): Option<Cell> {
    match a
    case CreateCell(uid, spec) =>
      if cell.None? && ValidCell(spec) then
        Some(Cell(uid, spec, CellController.CellHistory(CellController.INITIAL_STATUS, None), false, false, false))
      else cell
    case EditCell(spec) =>
      if cell.Some? && CellEditAllowed(Referenced(vc), cell.value.spec, spec) then Some(cell.value.(spec := spec, dropping := false)) else cell
    case DeleteCell =>
      if cell.Some? && cell.value.finalizer then Some(cell.value.(deleting := true)) else None
    case FinalizeCell =>
      if cell.Some? && !cell.value.deleting then Some(cell.value.(finalizer := true)) else cell
    case SaveCell(history, profile, round, wasDeleting) =>
      if cell.Some? && cell.value.finalizer && CellController.HistoryStep(cell.value.history, history, profile, round, wasDeleting)
      then Some(cell.value.(history := history, dropping := false)) else cell
    case ListClusters =>
      if cell.Some? && cell.value.deleting && cell.value.finalizer && vc.None? then Some(cell.value.(dropping := true)) else cell
    case DropCell =>
      if cell.Some? && cell.value.dropping then None else cell
  }

  function ClassAfter(class_: Option<Class>, vc: Option<Cluster>, a: ClassAction): Option<Class> {
    match a
    case CreateClass(uid, spec) => if class_.None? then Some(Class(uid, spec)) else class_
    case EditClass(spec) =>
      if class_.Some? && ClassEditAllowed(Referenced(vc), class_.value.spec, spec) then Some(class_.value.(spec := spec)) else class_
    case DeleteClass => None
  }

  function ObjectsAfter(w: World, a: ObjectAction): World {
    match a
    case ReportWork(key, applied, degraded, deleting) =>
      if key in w.works then w.(works := w.works[key := w.works[key].(applied := applied, degraded := degraded, deleting := deleting)]) else w
    case RemoveWork(key) => w.(works := w.works - {key})
    case RemoveSecret(secret) => w.(secrets := w.secrets - {secret})
    case PlaceWork(key, work) =>
      if key !in w.works && work.Uid() !in w.issued then w.(works := w.works[key := work]) else w
    case PlaceSecret(secret, owner) =>
      if secret !in w.secrets && owner !in w.issued then w.(secrets := w.secrets[secret := owner]) else w
  }

  ghost function Apply(cfg: Config, w: World, a: Action): World {
    match a
    case Step(answer) => RunStep(cfg, w, answer)
    case Crash => w.(worker := Idle)
    case User(u) => UserActs(w, u)
    case OnCell(c) => w.(cell := CellAfter(w.cell, w.vc, c))
    case OnClass(c) => w.(class_ := ClassAfter(w.class_, w.vc, c))
    case OnObject(o) => ObjectsAfter(w, o)
  }

  // ---- runs --------------------------------------------------------------------------------------

  ghost predicate Init(w: World) {
    w.vc.None? && w.issued == {} && w.cell.None? && w.class_.None? && w.worker.Idle?
  }

  ghost function Run(cfg: Config, w: World, actions: seq<Action>): World {
    if actions == [] then w else Apply(cfg, Run(cfg, w, actions[..|actions| - 1]), actions[|actions| - 1])
  }
}
