/** What every action of the lifecycle keeps, whatever the environment does. Each part of the invariant is its own
    predicate; what a step of the worker may change is stated once, as a frame. */
module LifecycleInvariants {
  import opened Api
  import opened Resolution
  import opened Lifecycle
  import CellController
  import Labels
  import Plan

  // ---- frames of the worker's steps --------------------------------------------------------------

  /** A worker that goes on with the same cluster and the same snapshot. */
  predicate GoesOn(c: Cluster, k: Worker) {
    k.Idle? || (k.Copy().uid == c.uid && k.Copy().status.resolved == c.status.resolved)
  }

  lemma ProvisionGoesOn(cfg: Config, works: map<Key, Work>, secrets: map<string, string>, r: Round, stage: Stage, answer: Answer)
    ensures var k := ProvisionStep(cfg, works, secrets, r, stage, answer).worker;
      && (k.Idle? || k.SaveStatus? || k.Provision?)
      && GoesOn(r.cluster, k)
      && (k.Provision? ==> k.round == r.(cluster := k.round.cluster))
  {
  }

  lemma CleanupGoesOn(cfg: Config, w: World, c: Cluster, task: Task, answer: Answer)
    requires !task.RemoveFinalizer?
    ensures var k := CleanupStep(cfg, w, c, task, answer).worker;
      (k.Idle? || k.SaveStatus? || (k.Cleanup? && k.cluster == c)) && GoesOn(c, k)
  {
  }

  /** A written Work carries the UID, and nothing else changes. */
  lemma PutIsOwned(cfg: Config, works: map<Key, Work>, key: Key, uid: string, resolved: Snapshot, spec: WorkSpec, patch: bool)
    ensures var put := PutWork(works, key, WorkLabels(cfg, uid, resolved), spec, patch);
      put.Some? ==> key in put.value && put.value[key].Uid() == uid && put.value[key].spec == spec && put.value == works[key := put.value[key]]
  {
    var labels := WorkLabels(cfg, uid, resolved);
    var others := if key in works then works[key].labels else map[];
    Labels.LabelsIdentifyTheOwner(others, cfg.cellName, cfg.namespace, cfg.name, uid, resolved.profileHash, cfg.cellName, cfg.namespace, cfg.name, uid);
    assert map[] + labels == labels;
  }

  /** The key of the Work a stage of a round writes. */
  function TargetKey(cfg: Config, r: Round, stage: Stage): Key {
    if stage.WriteFoundation? then FoundationKey(cfg, r.cell.spec.managedCluster, r.cluster.uid)
    else InstanceKey(cfg, r.cell.spec.managedCluster, r.cluster.uid)
  }

  lemma ProvisionWrites(cfg: Config, works: map<Key, Work>, secrets: map<string, string>, r: Round, stage: Stage, answer: Answer)
    ensures var o := ProvisionStep(cfg, works, secrets, r, stage, answer); var key := TargetKey(cfg, r, stage);
      && (o.works == works
          || ((stage.WriteFoundation? || stage.WriteInstance?) && (stage.patch || key !in works)
              && key in o.works && o.works[key].Uid() == r.cluster.uid && o.works == works[key := o.works[key]]
              && o.works[key].spec == (if stage.WriteFoundation? then FoundationSpec(r.resolved, r.addresses)
                                       else InstanceSpec(r.resolved, r.addresses, stage.intent.mirrored))))
      && (o.secrets == secrets || (stage.PublishSecret? && o.secrets == secrets[SecretName(cfg, r.cluster.uid) := r.cluster.uid]))
  {
    var key := TargetKey(cfg, r, stage);
    if stage.WriteFoundation? {
      PutIsOwned(cfg, works, key, r.cluster.uid, r.resolved, FoundationSpec(r.resolved, r.addresses), stage.patch);
    } else if stage.WriteInstance? {
      PutIsOwned(cfg, works, key, r.cluster.uid, r.resolved, InstanceSpec(r.resolved, r.addresses, stage.intent.mirrored), stage.patch);
    }
  }

  /** Deletion rounds add nothing: they remove a Secret, or remove or mark a Work. */
  lemma CleanupRemoves(cfg: Config, w: World, c: Cluster, task: Task, answer: Answer)
    requires !task.RemoveFinalizer?
    ensures var o := CleanupStep(cfg, w, c, task, answer);
      && (o.works == w.works || (task.DeleteWork? && o.works == RequestDeletion(w.works, task.key, answer.lingers)))
      && (o.secrets == w.secrets || (task.DeleteSecret? && o.secrets == w.secrets - {SecretName(cfg, c.uid)}))
  {
  }

  lemma DeletionOnlyMarks(works: map<Key, Work>, key: Key, lingers: bool)
    ensures var after := RequestDeletion(works, key, lingers);
      forall k :: k in after ==> k in works && (after[k] == works[k] || (k == key && after[k] == works[k].(deleting := true)))
  {
  }

  // ---- the worker's copy of the cluster ----------------------------------------------------------

  predicate SnapshotForm(s: Snapshot) {
    s == NO_SNAPSHOT || (s.hostNamespace != "" && s.managedCluster != "")
  }

  /** The worker is in a round that has read its cluster with the finalizer on. */
  predicate Engaged(k: Worker) {
    !k.Idle? && !k.AddFinalizer?
  }

  predicate StoredOk(c: Cluster, issued: set<string>) {
    && c.uid in issued && SnapshotForm(c.status.resolved)
    && (c.deleting || c.status.resolved != NO_SNAPSHOT ==> c.finalizer)
  }

  /** The worker's copy describes the stored cluster, up to a snapshot that is not saved yet. */
  predicate CopyOk(vc: Option<Cluster>, k: Worker) {
    && (!k.Idle? ==> SnapshotForm(k.Copy().status.resolved))
    && (Engaged(k) ==>
      && vc.Some? && vc.value.uid == k.Copy().uid && vc.value.finalizer
      && (vc.value.status.resolved == NO_SNAPSHOT || vc.value.status.resolved == k.Copy().status.resolved))
    && (k.Cleanup? ==> vc.value.deleting && vc.value.status.resolved == k.Copy().status.resolved)
  }

  predicate Attached(w: World) {
    "" !in w.issued && (w.vc.Some? ==> StoredOk(w.vc.value, w.issued)) && CopyOk(w.vc, w.worker)
  }

  predicate CellOk(c: Cell) {
    ValidCell(c.spec) && (c.Status().phase == CellReady ==> c.finalizer)
  }

  /** The snapshot that an evaluated round leaves in the worker's copy. */
  ghost function SnapshotAfter(cfg: Config, c: Cluster, cell: Cell, class_: Class): Snapshot {
    if cell.Status().phase == CellReady && cfg.resolvable(cell.spec, class_.spec)
    then TakeSnapshot(c, ResolvedFor(cfg, c.uid, cell, class_)).status.resolved else c.status.resolved
  }

  lemma EvaluatedCopy(cfg: Config, c: Cluster, cell: Cell, class_: Class, addresses: seq<string>)
    ensures var k := Evaluated(cfg, c, cell, class_, addresses);
      && (k.SaveStatus? || (k.Provision? && k.stage.CheckFoundation?))
      && k.Copy().uid == c.uid && k.Copy().status.resolved == SnapshotAfter(cfg, c, cell, class_)
  {
  }

  /** An evaluation neither observes the child nor makes a cluster Ready. */
  lemma EvaluatedStatus(cfg: Config, c: Cluster, cell: Cell, class_: Class, addresses: seq<string>)
    ensures var k := Evaluated(cfg, c, cell, class_, addresses);
      && !k.Idle? && k.Copy().status.child == c.status.child && k.Copy().status.observed == c.status.observed
      && (k.Copy().status.phase == Ready ==> c.status.phase == Ready)
  {
  }

  lemma SnapshotAfterHasForm(cfg: Config, c: Cluster, cell: Cell, class_: Class)
    requires Usable(cfg) && CellOk(cell) && SnapshotForm(c.status.resolved)
    ensures SnapshotForm(SnapshotAfter(cfg, c, cell, class_))
    ensures c.status.resolved != NO_SNAPSHOT ==> SnapshotAfter(cfg, c, cell, class_) == c.status.resolved
  {
  }

  lemma StartKeepsAttached(cfg: Config, w: World, answer: Answer)
    requires Attached(w) && (w.worker.Idle? || w.worker.AddFinalizer? || w.worker.ReadCell? || w.worker.SaveStatus?)
    ensures Attached(RunStep(cfg, w, answer))
  {
  }

  lemma ReadKeepsAttached(cfg: Config, w: World, answer: Answer)
    requires Usable(cfg) && Attached(w) && CellsSound(w) && w.worker.ReadClass?
    ensures Attached(RunStep(cfg, w, answer))
  {
    if !answer.fails && w.class_.Some? {
      EvaluatedCopy(cfg, w.worker.cluster, w.worker.cell, w.class_.value, answer.addresses);
      SnapshotAfterHasForm(cfg, w.worker.cluster, w.worker.cell, w.class_.value);
    }
  }

  lemma StepKeepsAttached(cfg: Config, w: World, answer: Answer)
    requires Usable(cfg) && Attached(w) && CellsSound(w)
    ensures Attached(RunStep(cfg, w, answer))
  {
    match w.worker
    case ReadClass(_, _) => ReadKeepsAttached(cfg, w, answer);
    case Provision(r, stage) =>
      ProvisionGoesOn(cfg, w.works, w.secrets, r, stage, answer);
      GoingOnStaysOk(w.vc, w.worker, ProvisionStep(cfg, w.works, w.secrets, r, stage, answer).worker);
    case Cleanup(c, task) =>
      if !task.RemoveFinalizer? {
        CleanupGoesOn(cfg, w, c, task, answer);
        GoingOnStaysOk(w.vc, w.worker, CleanupStep(cfg, w, c, task, answer).worker);
      }
    case _ => StartKeepsAttached(cfg, w, answer);
  }

  lemma GoingOnStaysOk(vc: Option<Cluster>, k: Worker, k': Worker)
    requires CopyOk(vc, k) && Engaged(k) && GoesOn(k.Copy(), k') && !k'.AddFinalizer? && (k'.Cleanup? ==> k.Cleanup?)
    ensures CopyOk(vc, k')
  {
  }

  // ---- the Cell and the round --------------------------------------------------------------------

  predicate CellHeld(k: Worker) {
    k.ReadClass? || k.Provision?
  }

  function HeldCell(k: Worker): Cell
    requires CellHeld(k)
  {
    if k.ReadClass? then k.cell else k.round.cell
  }

  predicate CellsSound(w: World) {
    && (w.cell.Some? ==> CellOk(w.cell.value))
    && (CellHeld(w.worker) ==> CellOk(HeldCell(w.worker)))
  }

  ghost predicate CellsBacked(w: World) {
    && (w.cell.Some? ==> CellController.Backed(w.cell.value.history))
    && (CellHeld(w.worker) ==> CellController.Backed(HeldCell(w.worker).history))
  }

  /** The Foundation Work that a stage has read and passed. */
  predicate GateOpen(stage: Stage) {
    && (stage.ReadInstance? ==> stage.passed.applied && !stage.passed.degraded)
    && (stage.ObserveChild? || stage.PublishSecret? || stage.CollectMirror? || stage.CheckInstance? || stage.WriteInstance? ==>
      stage.gate.foundation.applied && !stage.gate.foundation.degraded)
  }

  /** A round that goes on to write has been accepted against the snapshot it holds. */
  ghost predicate RoundOk(cfg: Config, r: Round) {
    && r.cell.Status().phase == CellReady
    && cfg.evaluate(r.cell.spec, r.cell.Status(), r.class_.spec) == Plan.Accepted
    && r.resolved == ResolvedFor(cfg, r.cluster.uid, r.cell, r.class_)
    && SameProvider(r.cluster.status.resolved, r.resolved)
  }

  ghost predicate RoundSound(cfg: Config, k: Worker) {
    k.Provision? ==> RoundOk(cfg, k.round) && GateOpen(k.stage)
  }

  lemma EvaluatedIsAccepted(cfg: Config, c: Cluster, cell: Cell, class_: Class, addresses: seq<string>)
    requires SnapshotForm(c.status.resolved)
    ensures var k := Evaluated(cfg, c, cell, class_, addresses);
      k.Provision? ==> RoundOk(cfg, k.round) && k.stage.CheckFoundation? && k.round.cell == cell && k.round.class_ == class_
  {
  }

  lemma ProvisionKeepsGate(cfg: Config, works: map<Key, Work>, secrets: map<string, string>, r: Round, stage: Stage, answer: Answer)
    requires GateOpen(stage)
    ensures var k := ProvisionStep(cfg, works, secrets, r, stage, answer).worker; k.Provision? ==> GateOpen(k.stage)
  {
  }

  lemma StepKeepsRound(cfg: Config, w: World, answer: Answer)
    requires Attached(w) && RoundSound(cfg, w.worker)
    ensures RoundSound(cfg, RunStep(cfg, w, answer).worker)
  {
    match w.worker
    case ReadClass(c, cell) =>
      if !answer.fails && w.class_.Some? {
        EvaluatedIsAccepted(cfg, c, cell, w.class_.value, answer.addresses);
      }
    case Provision(r, stage) =>
      ProvisionGoesOn(cfg, w.works, w.secrets, r, stage, answer);
      ProvisionKeepsGate(cfg, w.works, w.secrets, r, stage, answer);
      SameRound(cfg, r, ProvisionStep(cfg, w.works, w.secrets, r, stage, answer).worker);
    case Cleanup(c, task) => if !task.RemoveFinalizer? { CleanupGoesOn(cfg, w, c, task, answer); }
    case _ =>
  }

  lemma SameRound(cfg: Config, r: Round, k: Worker)
    requires RoundOk(cfg, r) && GoesOn(r.cluster, k)
    requires k.Provision? ==> k.round == r.(cluster := k.round.cluster)
    ensures k.Provision? ==> RoundOk(cfg, k.round)
  {
  }

  /** A step takes its Cell from the store or from the worker. */
  lemma StepHolds(cfg: Config, w: World, answer: Answer)
    ensures var w' := RunStep(cfg, w, answer);
      && w'.cell == w.cell
      && (CellHeld(w'.worker) ==>
        || (w.worker.ReadCell? && w.cell.Some? && HeldCell(w'.worker) == w.cell.value)
        || (CellHeld(w.worker) && HeldCell(w'.worker) == HeldCell(w.worker)))
  {
    match w.worker
    case ReadClass(c, cell) =>
      if !answer.fails && w.class_.Some? {
        EvaluatedHolds(cfg, c, cell, w.class_.value, answer.addresses);
      }
    case Provision(r, stage) => ProvisionGoesOn(cfg, w.works, w.secrets, r, stage, answer);
    case Cleanup(c, task) => if !task.RemoveFinalizer? { CleanupGoesOn(cfg, w, c, task, answer); }
    case _ =>
  }

  lemma EvaluatedHolds(cfg: Config, c: Cluster, cell: Cell, class_: Class, addresses: seq<string>)
    ensures var k := Evaluated(cfg, c, cell, class_, addresses);
      k.SaveStatus? || (k.Provision? && k.stage.CheckFoundation? && k.round.cell == cell && k.round.class_ == class_)
  {
  }

  /** The history of a stored Cell stays backed: the Cell reconciler is the only one that writes its status. */
  lemma ApplyKeepsBacked(cfg: Config, w: World, a: Action)
    requires CellsBacked(w)
    ensures CellsBacked(Apply(cfg, w, a))
  {
    if a.Step? {
      StepHolds(cfg, w, a.answer);
    } else if a.OnCell? && a.onCell.SaveCell? && w.cell.Some? {
      var s := a.onCell;
      if CellController.HistoryStep(w.cell.value.history, s.history, s.profile, s.cellRound, s.wasDeleting) {
        CellController.StepKeepsBacked(w.cell.value.history, s.history, s.profile, s.cellRound, s.wasDeleting);
      }
    }
  }

  // ---- the names of owned objects ----------------------------------------------------------------

  predicate WorkNamed(cfg: Config, key: Key, uid: string) {
    key.1 == cfg.names(uid).foundationWork || key.1 == cfg.names(uid).instanceWork
  }

  /** Whatever carries a cluster's UID has one of its derived names. */
  predicate NamedFor(cfg: Config, uid: string, works: map<Key, Work>, secrets: map<string, string>) {
    && (forall k :: k in works && works[k].Uid() == uid ==> WorkNamed(cfg, k, uid))
    && (forall s :: s in secrets && secrets[s] == uid ==> s == SecretName(cfg, uid))
  }

  predicate Named(cfg: Config, w: World) {
    w.vc.Some? ==> NamedFor(cfg, w.vc.value.uid, w.works, w.secrets)
  }

  lemma ProvisionKeepsNamed(cfg: Config, works: map<Key, Work>, secrets: map<string, string>, r: Round, stage: Stage, answer: Answer)
    requires NamedFor(cfg, r.cluster.uid, works, secrets)
    ensures var o := ProvisionStep(cfg, works, secrets, r, stage, answer); NamedFor(cfg, r.cluster.uid, o.works, o.secrets)
  {
    ProvisionWrites(cfg, works, secrets, r, stage, answer);
  }

  lemma CleanupKeepsNamed(cfg: Config, w: World, c: Cluster, task: Task, answer: Answer)
    requires !task.RemoveFinalizer? && NamedFor(cfg, c.uid, w.works, w.secrets)
    ensures var o := CleanupStep(cfg, w, c, task, answer); NamedFor(cfg, c.uid, o.works, o.secrets)
  {
    CleanupRemoves(cfg, w, c, task, answer);
    if task.DeleteWork? {
      DeletionOnlyMarks(w.works, task.key, answer.lingers);
    }
  }

  lemma StepKeepsNamed(cfg: Config, w: World, answer: Answer)
    requires Attached(w) && Named(cfg, w)
    ensures Named(cfg, RunStep(cfg, w, answer))
  {
    match w.worker
    case Provision(r, stage) => ProvisionKeepsNamed(cfg, w.works, w.secrets, r, stage, answer);
    case Cleanup(c, task) => if !task.RemoveFinalizer? { CleanupKeepsNamed(cfg, w, c, task, answer); }
    case _ =>
  }

  // ---- how far a deletion has got ----------------------------------------------------------------

  predicate NoneAt(works: map<Key, Work>, key: Key, uid: string) {
    key in works ==> works[key].Uid() != uid
  }

  predicate NoSecret(secrets: map<string, string>, uid: string) {
    forall s :: s in secrets ==> secrets[s] != uid
  }

  predicate TaskCleared(cfg: Config, uid: string, task: Task, works: map<Key, Work>, secrets: map<string, string>) {
    && (task.CheckSecret? || task.DeleteSecret? || NoSecret(secrets, uid))
    && (task.FindInstance? || task.FindFoundation? || task.DeleteWork? || task.RemoveFinalizer? ==> task.home != "")
    && (task.FindFoundation? && task.instance.None? ==> NoneAt(works, InstanceKey(cfg, task.home, uid), uid))
    && (task.DeleteWork? ==>
      || task.key == InstanceKey(cfg, task.home, uid)
      || (task.key == FoundationKey(cfg, task.home, uid) && NoneAt(works, InstanceKey(cfg, task.home, uid), uid)))
    && (task.RemoveFinalizer? ==>
      NoneAt(works, InstanceKey(cfg, task.home, uid), uid) && NoneAt(works, FoundationKey(cfg, task.home, uid), uid))
  }

  predicate Cleared(cfg: Config, w: World) {
    w.worker.Cleanup? ==> TaskCleared(cfg, w.worker.cluster.uid, w.worker.task, w.works, w.secrets)
  }

  lemma CleanupClears(cfg: Config, w: World, c: Cluster, task: Task, answer: Answer)
    requires Usable(cfg) && !task.RemoveFinalizer? && TaskCleared(cfg, c.uid, task, w.works, w.secrets)
    requires NamedFor(cfg, c.uid, w.works, w.secrets)
    requires w.cell.Some? ==> w.cell.value.spec.managedCluster != ""
    ensures var o := CleanupStep(cfg, w, c, task, answer); o.worker.Cleanup? ==> TaskCleared(cfg, c.uid, o.worker.task, o.works, o.secrets)
  {
  }

  lemma CleanupKeepsCleared(cfg: Config, w: World, answer: Answer)
    requires Usable(cfg) && Attached(w) && CellsSound(w) && Named(cfg, w) && Cleared(cfg, w) && w.worker.Cleanup?
    ensures Cleared(cfg, RunStep(cfg, w, answer))
  {
    var c, task := w.worker.cluster, w.worker.task;
    if !task.RemoveFinalizer? {
      CleanupClears(cfg, w, c, task, answer);
      CleanupGoesOn(cfg, w, c, task, answer);
    }
  }

  lemma StepKeepsCleared(cfg: Config, w: World, answer: Answer)
    requires Usable(cfg) && Attached(w) && CellsSound(w) && Named(cfg, w) && Cleared(cfg, w)
    ensures Cleared(cfg, RunStep(cfg, w, answer))
  {
    match w.worker
    case ReadClass(c, cell) =>
      if !answer.fails && w.class_.Some? {
        EvaluatedHolds(cfg, c, cell, w.class_.value, answer.addresses);
      }
    case Provision(r, stage) => ProvisionGoesOn(cfg, w.works, w.secrets, r, stage, answer);
    case Cleanup(_, _) => CleanupKeepsCleared(cfg, w, answer);
    case _ =>
  }

  // ---- when an Instance Work may be rewritten ----------------------------------------------------

  predicate AppliedInstance(g: Gate) {
    g.instance.Some? && g.instance.value.applied
  }

  /** A rewrite needs a successful observation of an applied Instance Work and a successful listing; otherwise there is
      no Instance Work of the cluster yet. */
  predicate StageGuarded(cfg: Config, r: Round, stage: Stage, works: map<Key, Work>) {
    var key := InstanceKey(cfg, r.cell.spec.managedCluster, r.cluster.uid);
    && (stage.PublishSecret? || stage.CollectMirror? ==> r.cluster.status.observed && AppliedInstance(stage.gate))
    && ((stage.ObserveChild? || stage.CheckInstance? || stage.WriteInstance?) && stage.gate.instance.None? ==> NoneAt(works, key, r.cluster.uid))
    && (stage.CheckInstance? || stage.WriteInstance? ==>
      if stage.intent.observedOk && stage.intent.mirrorOk then
        r.cluster.status.observed && r.cluster.status.child.api && AppliedInstance(stage.gate)
      else stage.gate.instance.None?)
    && (stage.WriteInstance? && stage.gate.instance.None? ==> !stage.patch)
  }

  predicate MirrorGuarded(cfg: Config, w: World) {
    w.worker.Provision? ==> StageGuarded(cfg, w.worker.round, w.worker.stage, w.works)
  }

  lemma ProvisionGuards(cfg: Config, works: map<Key, Work>, secrets: map<string, string>, r: Round, stage: Stage, answer: Answer)
    requires StageGuarded(cfg, r, stage, works)
    ensures var o := ProvisionStep(cfg, works, secrets, r, stage, answer); o.worker.Provision? ==> StageGuarded(cfg, o.worker.round, o.worker.stage, o.works)
  {
  }

  lemma StepKeepsMirror(cfg: Config, w: World, answer: Answer)
    requires MirrorGuarded(cfg, w)
    ensures MirrorGuarded(cfg, RunStep(cfg, w, answer))
  {
    match w.worker
    case ReadClass(c, cell) =>
      if !answer.fails && w.class_.Some? {
        EvaluatedHolds(cfg, c, cell, w.class_.value, answer.addresses);
      }
    case Provision(r, stage) => ProvisionGuards(cfg, w.works, w.secrets, r, stage, answer);
    case Cleanup(c, task) => if !task.RemoveFinalizer? { CleanupGoesOn(cfg, w, c, task, answer); }
    case _ =>
  }

  // ---- together ----------------------------------------------------------------------------------

  ghost predicate Sound(cfg: Config, w: World) {
    Attached(w) && CellsSound(w) && RoundSound(cfg, w.worker) && Named(cfg, w) && Cleared(cfg, w) && MirrorGuarded(cfg, w)
  }

  lemma StepKeepsSound(cfg: Config, w: World, answer: Answer)
    requires Usable(cfg) && Sound(cfg, w)
    ensures Sound(cfg, RunStep(cfg, w, answer))
  {
    StepKeepsAttached(cfg, w, answer);
    StepHolds(cfg, w, answer);
    StepKeepsRound(cfg, w, answer);
    StepKeepsNamed(cfg, w, answer);
    StepKeepsCleared(cfg, w, answer);
    StepKeepsMirror(cfg, w, answer);
  }

  lemma UserKeepsSound(cfg: Config, w: World, a: UserAction)
    requires Sound(cfg, w)
    ensures Sound(cfg, UserActs(w, a))
  {
    assert Attached(UserActs(w, a));
    assert Named(cfg, UserActs(w, a));
  }

  /** Nothing that carries the UID is new in `after`. */
  predicate NothingNew(uid: string, before: World, after: World) {
    && (forall k :: k in after.works && after.works[k].Uid() == uid ==> k in before.works && before.works[k].Uid() == uid)
    && (forall s :: s in after.secrets && after.secrets[s] == uid ==> s in before.secrets && before.secrets[s] == uid)
  }

  /** The agent and third parties change Works and Secrets only, and never add one with an issued UID. */
  lemma ObjectsAddNothing(w: World, a: ObjectAction, uid: string)
    requires uid in w.issued
    ensures var w' := ObjectsAfter(w, a); w' == w.(works := w'.works, secrets := w'.secrets) && NothingNew(uid, w, w')
  {
  }

  lemma ObjectsKeepSound(cfg: Config, w: World, a: ObjectAction)
    requires Sound(cfg, w)
    ensures Sound(cfg, ObjectsAfter(w, a))
  {
    if w.vc.Some? {
      ObjectsAddNothing(w, a, w.vc.value.uid);
      LessStaysSound(cfg, w, ObjectsAfter(w, a));
    }
  }

  lemma LessStaysSound(cfg: Config, w: World, w': World)
    requires Sound(cfg, w) && w' == w.(works := w'.works, secrets := w'.secrets)
    requires w.vc.Some? && NothingNew(w.vc.value.uid, w, w')
    ensures Sound(cfg, w')
  {
  }

  lemma CellStaysOk(cell: Option<Cell>, vc: Option<Cluster>, a: CellAction)
    requires cell.Some? ==> CellOk(cell.value)
    ensures var after := CellAfter(cell, vc, a); after.Some? ==> CellOk(after.value)
  {
  }

  /** Every action keeps the invariant, whatever the environment does. */
  lemma ApplyKeepsSound(cfg: Config, w: World, a: Action)
    requires Usable(cfg) && Sound(cfg, w)
    ensures Sound(cfg, Apply(cfg, w, a))
  {
    match a
    case Step(answer) => StepKeepsSound(cfg, w, answer);
    case Crash =>
    case User(u) => UserKeepsSound(cfg, w, u);
    case OnCell(c) => CellStaysOk(w.cell, w.vc, c);
    case OnClass(_) =>
    case OnObject(o) => ObjectsKeepSound(cfg, w, o);
  }
}
