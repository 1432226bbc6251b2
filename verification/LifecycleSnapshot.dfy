/** The resolved snapshot is taken once and then agrees with every later resolution of a live cluster
    (internal/controller/virtualcluster_controller.go:119-136, 606-624; api/v1alpha1/webhooks.go:73-116). */
module LifecycleSnapshot {
  import opened Api
  import opened Resolution
  import opened Lifecycle
  import opened LifecycleInvariants
  import opened LifecycleOrphans
  import Names

  // ---- once saved, never changed -----------------------------------------------------------------

  /** While the cluster with this UID exists, its stored snapshot is the given one. */
  predicate Pinned(w: World, uid: string, snapshot: Snapshot) {
    uid in w.issued && (w.vc.Some? && w.vc.value.uid == uid ==> w.vc.value.status.resolved == snapshot)
  }

  lemma StepKeepsPinned(cfg: Config, w: World, answer: Answer, uid: string, snapshot: Snapshot)
    requires Attached(w) && Pinned(w, uid, snapshot) && snapshot != NO_SNAPSHOT
    ensures Pinned(RunStep(cfg, w, answer), uid, snapshot)
  {
  }

  lemma OthersKeepPinned(cfg: Config, w: World, a: Action, uid: string, snapshot: Snapshot)
    requires !a.Step? && Pinned(w, uid, snapshot)
    ensures Pinned(Apply(cfg, w, a), uid, snapshot)
  {
  }

  /** On every run: from the moment a snapshot is saved, the cluster with that UID has that snapshot for as long as it
      exists, and no later cluster gets the UID. */
  lemma {:induction false} SnapshotNeverChanges(cfg: Config, w: World, first: seq<Action>, second: seq<Action>)
    requires Usable(cfg) && Init(w)
    requires var saved := Run(cfg, w, first); saved.vc.Some? && saved.vc.value.status.resolved != NO_SNAPSHOT
    ensures var saved := Run(cfg, w, first).vc.value; Pinned(Run(cfg, w, first + second), saved.uid, saved.status.resolved)
    decreases |second|
  {
    var saved := Run(cfg, w, first).vc.value;
    AlwaysSound(cfg, w, first);
    if second == [] {
      assert first + second == first;
    } else {
      var init, last := second[..|second| - 1], second[|second| - 1];
      SnapshotNeverChanges(cfg, w, first, init);
      AlwaysSound(cfg, w, first + init);
      RunExtends(cfg, w, first + init, last);
      assert first + init + [last] == first + second;
      var before := Run(cfg, w, first + init);
      if last.Step? {
        StepKeepsPinned(cfg, before, last.answer, saved.uid, saved.status.resolved);
      } else {
        OthersKeepPinned(cfg, before, last, saved.uid, saved.status.resolved);
      }
    }
  }

  // ---- the Cell of a live cluster ----------------------------------------------------------------

  /** The snapshot was resolved against this Cell and some class. */
  ghost predicate ResolvedOn(cfg: Config, uid: string, cell: Cell, s: Snapshot) {
    exists classUid, spec :: s == cfg.resolve(uid, cell.uid, cell.spec, classUid, spec)
  }

  /** The Cell is bound: it holds its finalizer and was the source of the snapshot. */
  ghost predicate BoundTo(cfg: Config, uid: string, cell: Option<Cell>, s: Snapshot) {
    s != NO_SNAPSHOT ==> cell.Some? && cell.value.finalizer && ResolvedOn(cfg, uid, cell.value, s)
  }

  predicate HeldIsCurrent(cell: Option<Cell>, k: Worker) {
    CellHeld(k) && HeldCell(k).finalizer ==>
      cell.Some? && cell.value.finalizer && cell.value.uid == HeldCell(k).uid && cell.value.spec == HeldCell(k).spec
  }

  ghost predicate CellBound(cfg: Config, w: World) {
    Referenced(w.vc) ==>
      && BoundTo(cfg, w.vc.value.uid, w.cell, w.vc.value.status.resolved)
      && (Engaged(w.worker) ==> BoundTo(cfg, w.vc.value.uid, w.cell, w.worker.Copy().status.resolved))
      && HeldIsCurrent(w.cell, w.worker)
  }

  lemma EvaluatedIsBound(cfg: Config, w: World, answer: Answer)
    requires Usable(cfg) && Attached(w) && CellsSound(w) && CellBound(cfg, w) && w.worker.ReadClass?
    ensures CellBound(cfg, RunStep(cfg, w, answer))
  {
    if !answer.fails && w.class_.Some? && Referenced(w.vc) {
      var c, cell, class_ := w.worker.cluster, w.worker.cell, w.class_.value;
      EvaluatedCopy(cfg, c, cell, class_, answer.addresses);
      EvaluatedHolds(cfg, c, cell, class_, answer.addresses);
      SnapshotAfterHasForm(cfg, c, cell, class_);
      if SnapshotAfter(cfg, c, cell, class_) != c.status.resolved {
        assert SnapshotAfter(cfg, c, cell, class_) == cfg.resolve(c.uid, w.cell.value.uid, w.cell.value.spec, class_.uid, class_.spec);
      }
    }
  }

  lemma RoundKeepsBound(cfg: Config, w: World, answer: Answer)
    requires Attached(w) && CellBound(cfg, w) && w.worker.Provision?
    ensures CellBound(cfg, RunStep(cfg, w, answer))
  {
    ProvisionGoesOn(cfg, w.works, w.secrets, w.worker.round, w.worker.stage, answer);
  }

  lemma CleanupKeepsBound(cfg: Config, w: World, answer: Answer)
    requires Attached(w) && w.worker.Cleanup?
    ensures CellBound(cfg, RunStep(cfg, w, answer))
  {
  }

  lemma SaveKeepsBound(cfg: Config, w: World, answer: Answer)
    requires Attached(w) && CellBound(cfg, w) && w.worker.SaveStatus?
    ensures CellBound(cfg, RunStep(cfg, w, answer))
  {
  }

  lemma StepKeepsBound(cfg: Config, w: World, answer: Answer)
    requires Usable(cfg) && Attached(w) && CellsSound(w) && CellBound(cfg, w)
    ensures CellBound(cfg, RunStep(cfg, w, answer))
  {
    match w.worker
    case ReadClass(_, _) => EvaluatedIsBound(cfg, w, answer);
    case Provision(_, _) => RoundKeepsBound(cfg, w, answer);
    case Cleanup(_, _) => CleanupKeepsBound(cfg, w, answer);
    case SaveStatus(_) => SaveKeepsBound(cfg, w, answer);
    case _ => StartKeepsBound(cfg, w, answer);
  }

  lemma StartKeepsBound(cfg: Config, w: World, answer: Answer)
    requires Attached(w) && CellBound(cfg, w) && (w.worker.Idle? || w.worker.AddFinalizer? || w.worker.ReadCell?)
    ensures CellBound(cfg, RunStep(cfg, w, answer))
  {
  }

  lemma UserKeepsBound(cfg: Config, w: World, a: UserAction)
    requires Attached(w) && CellBound(cfg, w)
    ensures CellBound(cfg, UserActs(w, a))
  {
  }

  /** The webhook keeps the Cell of a live cluster as it is, up to its status. */
  lemma LiveCellIsKept(cell: Option<Cell>, vc: Option<Cluster>, a: CellAction)
    requires Referenced(vc) && cell.Some? && cell.value.finalizer && !(a.DropCell? && cell.value.dropping)
    ensures var after := CellAfter(cell, vc, a);
      after.Some? && after.value.finalizer && after.value.uid == cell.value.uid && after.value.spec == cell.value.spec
  {
  }

  lemma ObjectsFrame(w: World, a: ObjectAction)
    ensures var w' := ObjectsAfter(w, a); w' == w.(works := w'.works, secrets := w'.secrets)
  {
  }

  lemma ApplyKeepsBound(cfg: Config, w: World, a: Action)
    requires Usable(cfg) && Attached(w) && CellsSound(w) && CellBound(cfg, w) && CellStays(w, a)
    ensures CellBound(cfg, Apply(cfg, w, a))
  {
    match a
    case Step(answer) => StepKeepsBound(cfg, w, answer);
    case OnCell(c) =>
      if Referenced(w.vc) && w.cell.Some? && w.cell.value.finalizer {
        LiveCellIsKept(w.cell, w.vc, c);
        assert forall s :: ResolvedOn(cfg, w.vc.value.uid, w.cell.value, s) ==> ResolvedOn(cfg, w.vc.value.uid, CellAfter(w.cell, w.vc, c).value, s);
      }
    case OnClass(_) =>
    case Crash =>
    case User(u) => UserKeepsBound(cfg, w, u);
    case OnObject(o) => ObjectsFrame(w, o);
  }

  lemma {:induction false} AlwaysBound(cfg: Config, w: World, actions: seq<Action>)
    requires Usable(cfg) && Init(w) && Allowed(cfg, w, actions, CellStays)
    ensures CellBound(cfg, Run(cfg, w, actions))
    decreases |actions|
  {
    if actions != [] {
      var init := actions[..|actions| - 1];
      AllowedPrefix(cfg, w, actions, CellStays);
      AlwaysBound(cfg, w, init);
      AlwaysSound(cfg, w, init);
      ApplyKeepsBound(cfg, Run(cfg, w, init), actions[|actions| - 1]);
    }
  }

  // ---- when drift is reported --------------------------------------------------------------------

  /** What a later resolution can find changed in the class. */
  ghost predicate ClassDiffers(saved: Snapshot, now: Snapshot) {
    saved.classUid != now.classUid || !SemanticEqual(saved.quota, now.quota) || saved.storageClass != now.storageClass
    || saved.profileHash != now.profileHash
  }

  lemma ResolveFields(codec: Codec, namespace: string, name: string, cellName: string, uid: string, cellUid: string, cell: CellSpec, classUid: string, spec: ClassSpec)
    ensures ConfigFor(codec, namespace, name, cellName).resolve(uid, cellUid, cell, classUid, spec)
      == SnapshotOf(codec, cellUid, cell, classUid, spec)
         .(hostNamespace := Names.NamesFor(namespace, name, uid).hostNamespace, k3kCluster := Names.NamesFor(namespace, name, uid).k3kCluster)
  {
  }

  predicate OnlyClassDiffers(a: Snapshot, b: Snapshot) {
    a == b.(classUid := a.classUid, profileHash := a.profileHash, quota := a.quota, storageClass := a.storageClass)
  }

  lemma SnapshotsDifferInClass(codec: Codec, cellUid: string, cell: CellSpec, host: string, k3k: string, classUid: string, spec: ClassSpec, classUid': string, spec': ClassSpec)
    ensures OnlyClassDiffers(
      SnapshotOf(codec, cellUid, cell, classUid, spec).(hostNamespace := host, k3kCluster := k3k),
      SnapshotOf(codec, cellUid, cell, classUid', spec').(hostNamespace := host, k3kCluster := k3k))
  {
  }

  lemma SameElsewhere(a: Snapshot, b: Snapshot)
    requires OnlyClassDiffers(a, b)
    ensures SameProvider(a, b) <==> !ClassDiffers(a, b)
  {
  }

  lemma SameCellSameProvider(codec: Codec, namespace: string, name: string, cellName: string, uid: string, cell: Cell, a: Snapshot, b: Snapshot)
    ensures var cfg := ConfigFor(codec, namespace, name, cellName);
      ResolvedOn(cfg, uid, cell, a) && ResolvedOn(cfg, uid, cell, b) ==>
        OnlyClassDiffers(a, b) && (SameProvider(a, b) <==> !ClassDiffers(a, b))
  {
    var cfg := ConfigFor(codec, namespace, name, cellName);
    if !ResolvedOn(cfg, uid, cell, a) || !ResolvedOn(cfg, uid, cell, b) {
      return;
    }
    var classUid, spec :| a == cfg.resolve(uid, cell.uid, cell.spec, classUid, spec);
    var classUid', spec' :| b == cfg.resolve(uid, cell.uid, cell.spec, classUid', spec');
    ResolveFields(codec, namespace, name, cellName, uid, cell.uid, cell.spec, classUid, spec);
    ResolveFields(codec, namespace, name, cellName, uid, cell.uid, cell.spec, classUid', spec');
    var n := Names.NamesFor(namespace, name, uid);
    SnapshotsDifferInClass(codec, cell.uid, cell.spec, n.hostNamespace, n.k3kCluster, classUid, spec, classUid', spec');
    SameElsewhere(a, b);
  }

  /** A round of a live cluster that is about to compare its snapshot with the current references. */
  predicate Compares(w: World) {
    Referenced(w.vc) && w.worker.ReadClass? && w.class_.Some?
    && w.worker.cell.Status().phase == CellReady && w.worker.cluster.status.resolved != NO_SNAPSHOT
  }

  function Now(cfg: Config, w: World): Snapshot
    requires Compares(w)
  {
    ResolvedFor(cfg, w.worker.cluster.uid, w.worker.cell, w.class_.value)
  }

  lemma BothOnTheCell(cfg: Config, w: World)
    requires Attached(w) && CellsSound(w) && CellBound(cfg, w) && Compares(w)
    ensures w.cell.Some?
    ensures ResolvedOn(cfg, w.vc.value.uid, w.cell.value, w.worker.cluster.status.resolved)
    ensures ResolvedOn(cfg, w.vc.value.uid, w.cell.value, Now(cfg, w))
  {
    assert Now(cfg, w) == cfg.resolve(w.vc.value.uid, w.cell.value.uid, w.cell.value.spec, w.class_.value.uid, w.class_.value.spec);
  }

  /** On every run of the controller on which the Cell stays, a round of a live cluster with a snapshot differs from it in
      nothing that the Cell determines, and finds drift exactly when the class differs: another UID, another quota or storage
      class, or another fingerprint. */
  lemma DriftIff(codec: Codec, namespace: string, name: string, cellName: string, w: World, actions: seq<Action>)
    requires Init(w) && Allowed(ConfigFor(codec, namespace, name, cellName), w, actions, CellStays)
    ensures var cfg := ConfigFor(codec, namespace, name, cellName); var before := Run(cfg, w, actions);
      Compares(before) ==>
        var saved, now := before.worker.cluster.status.resolved, Now(cfg, before);
        OnlyClassDiffers(saved, now) && (!SameProvider(saved, now) <==> ClassDiffers(saved, now))
  {
    var cfg := ConfigFor(codec, namespace, name, cellName);
    var before := Run(cfg, w, actions);
    ControllerIsUsable(codec, namespace, name, cellName);
    BoundRun(cfg, w, actions);
    if Compares(before) {
      SameCellSameProvider(codec, namespace, name, cellName, before.vc.value.uid, before.cell.value, before.worker.cluster.status.resolved, Now(cfg, before));
    }
  }

  lemma BoundRun(cfg: Config, w: World, actions: seq<Action>)
    requires Usable(cfg) && Init(w) && Allowed(cfg, w, actions, CellStays)
    ensures var before := Run(cfg, w, actions);
      Compares(before) ==>
        && before.cell.Some?
        && ResolvedOn(cfg, before.vc.value.uid, before.cell.value, before.worker.cluster.status.resolved)
        && ResolvedOn(cfg, before.vc.value.uid, before.cell.value, Now(cfg, before))
  {
    AlwaysBound(cfg, w, actions);
    AlwaysSound(cfg, w, actions);
    if Compares(Run(cfg, w, actions)) {
      BothOnTheCell(cfg, Run(cfg, w, actions));
    }
  }

  // ---- the class of a live cluster ---------------------------------------------------------------

  /** The Cell stays, and while a live cluster refers to the class it is not deleted and an edit keeps the printed format of its
      quota. */
  predicate ClassKept(w: World, a: Action) {
    && CellStays(w, a)
    && (a.OnClass? && Referenced(w.vc) && w.class_.Some? ==>
      && !a.onClass.DeleteClass?
      && (a.onClass.EditClass? ==>
        forall k :: k in w.class_.value.spec.workloadHard && k in a.onClass.classSpec.workloadHard ==>
          w.class_.value.spec.workloadHard[k].format == a.onClass.classSpec.workloadHard[k].format))
  }

  /** The snapshot is what the current Cell and class resolve to. */
  predicate Fits(cfg: Config, uid: string, cell: Option<Cell>, class_: Option<Class>, s: Snapshot) {
    s != NO_SNAPSHOT ==> cell.Some? && cell.value.finalizer && class_.Some? && s == ResolvedFor(cfg, uid, cell.value, class_.value)
  }

  predicate Stable(cfg: Config, w: World) {
    Referenced(w.vc) ==>
      && Fits(cfg, w.vc.value.uid, w.cell, w.class_, w.vc.value.status.resolved)
      && (Engaged(w.worker) ==> Fits(cfg, w.vc.value.uid, w.cell, w.class_, w.worker.Copy().status.resolved))
      && HeldIsCurrent(w.cell, w.worker)
  }

  lemma EvaluatedIsStable(cfg: Config, w: World, answer: Answer)
    requires Usable(cfg) && Attached(w) && CellsSound(w) && Stable(cfg, w) && w.worker.ReadClass?
    ensures Stable(cfg, RunStep(cfg, w, answer))
  {
    if !answer.fails && w.class_.Some? && Referenced(w.vc) {
      var c, cell, class_ := w.worker.cluster, w.worker.cell, w.class_.value;
      EvaluatedCopy(cfg, c, cell, class_, answer.addresses);
      EvaluatedHolds(cfg, c, cell, class_, answer.addresses);
      SnapshotAfterHasForm(cfg, c, cell, class_);
    }
  }

  lemma RoundKeepsStable(cfg: Config, w: World, answer: Answer)
    requires Attached(w) && Stable(cfg, w) && w.worker.Provision?
    ensures Stable(cfg, RunStep(cfg, w, answer))
  {
    ProvisionGoesOn(cfg, w.works, w.secrets, w.worker.round, w.worker.stage, answer);
  }

  lemma CleanupKeepsStable(cfg: Config, w: World, answer: Answer)
    requires Attached(w) && w.worker.Cleanup?
    ensures Stable(cfg, RunStep(cfg, w, answer))
  {
  }

  lemma SaveKeepsStable(cfg: Config, w: World, answer: Answer)
    requires Attached(w) && Stable(cfg, w) && w.worker.SaveStatus?
    ensures Stable(cfg, RunStep(cfg, w, answer))
  {
  }

  lemma StepKeepsStable(cfg: Config, w: World, answer: Answer)
    requires Usable(cfg) && Attached(w) && CellsSound(w) && Stable(cfg, w)
    ensures Stable(cfg, RunStep(cfg, w, answer))
  {
    match w.worker
    case ReadClass(_, _) => EvaluatedIsStable(cfg, w, answer);
    case Provision(_, _) => RoundKeepsStable(cfg, w, answer);
    case Cleanup(_, _) => CleanupKeepsStable(cfg, w, answer);
    case SaveStatus(_) => SaveKeepsStable(cfg, w, answer);
    case _ => StartKeepsStable(cfg, w, answer);
  }

  lemma StartKeepsStable(cfg: Config, w: World, answer: Answer)
    requires Attached(w) && Stable(cfg, w) && (w.worker.Idle? || w.worker.AddFinalizer? || w.worker.ReadCell?)
    ensures Stable(cfg, RunStep(cfg, w, answer))
  {
  }

  lemma UserKeepsStable(cfg: Config, w: World, a: UserAction)
    requires Attached(w) && Stable(cfg, w)
    ensures Stable(cfg, UserActs(w, a))
  {
  }

  lemma SameQuota(a: QuotaList, b: QuotaList)
    requires SemanticEqual(a, b) && forall k :: k in a && k in b ==> a[k].format == b[k].format
    ensures a == b
  {
    forall k | k in a ensures k in b && a[k] == b[k] {
      assert k in a.Keys && k in b.Keys;
    }
  }

  lemma LiveClassIsKept(w: World, a: ClassAction)
    requires Referenced(w.vc) && w.class_.Some? && ClassKept(w, OnClass(a))
    ensures ClassAfter(w.class_, w.vc, a) == w.class_
  {
    if a.EditClass? && ClassEditAllowed(true, w.class_.value.spec, a.classSpec) {
      SameQuota(w.class_.value.spec.workloadHard, a.classSpec.workloadHard);
    }
  }

  lemma ApplyKeepsStable(cfg: Config, w: World, a: Action)
    requires Usable(cfg) && Attached(w) && CellsSound(w) && Stable(cfg, w) && ClassKept(w, a)
    ensures Stable(cfg, Apply(cfg, w, a))
  {
    match a
    case Step(answer) => StepKeepsStable(cfg, w, answer);
    case OnCell(c) =>
      if Referenced(w.vc) && w.cell.Some? && w.cell.value.finalizer {
        LiveCellIsKept(w.cell, w.vc, c);
      }
    case OnClass(c) =>
      if Referenced(w.vc) && w.class_.Some? {
        LiveClassIsKept(w, c);
      }
    case Crash =>
    case User(u) => UserKeepsStable(cfg, w, u);
    case OnObject(o) => ObjectsFrame(w, o);
  }

  /** On every run that keeps the class: the stored snapshot of a live cluster is what its Cell and class resolve to now,
      in all fields. */
  lemma {:induction false} SnapshotIsStable(cfg: Config, w: World, actions: seq<Action>)
    requires Usable(cfg) && Init(w) && Allowed(cfg, w, actions, ClassKept)
    ensures Stable(cfg, Run(cfg, w, actions))
    decreases |actions|
  {
    if actions != [] {
      var init := actions[..|actions| - 1];
      AllowedPrefix(cfg, w, actions, ClassKept);
      SnapshotIsStable(cfg, w, init);
      AlwaysSound(cfg, w, init);
      ApplyKeepsStable(cfg, Run(cfg, w, init), actions[|actions| - 1]);
    }
  }

  /** So no round of a live cluster can report ResolvedDrift. */
  lemma DriftIsUnreachable(cfg: Config, w: World, actions: seq<Action>)
    requires Usable(cfg) && Init(w) && Allowed(cfg, w, actions, ClassKept)
    ensures var before := Run(cfg, w, actions); Compares(before) ==> Now(cfg, before) == before.worker.cluster.status.resolved
  {
    SnapshotIsStable(cfg, w, actions);
    AlwaysSound(cfg, w, actions);
  }

  /** Deleting the class and creating it again under the same name is allowed by the webhooks and ends in Failed. */
  lemma RecreatedClassFails(cfg: Config, w: World, classUid: string, addresses: seq<string>)
    requires Usable(cfg) && Sound(cfg, w) && Referenced(w.vc) && w.class_.Some? && w.worker.ReadClass?
    requires w.worker.cell.Status().phase == CellReady && cfg.resolvable(w.worker.cell.spec, w.class_.value.spec)
    requires w.worker.cluster.status.resolved != NO_SNAPSHOT && w.worker.cluster.status.resolved.classUid != classUid
    ensures var recreated := Apply(cfg, Apply(cfg, w, OnClass(DeleteClass)), OnClass(CreateClass(classUid, w.class_.value.spec)));
      var evaluated := RunStep(cfg, recreated, SMOOTH.(addresses := addresses));
      var saved := RunStep(cfg, evaluated, SMOOTH);
      saved.vc.Some? && saved.vc.value.status.phase == Failed
  {
    var recreated := Apply(cfg, Apply(cfg, w, OnClass(DeleteClass)), OnClass(CreateClass(classUid, w.class_.value.spec)));
    assert recreated.class_ == Some(Class(classUid, w.class_.value.spec));
  }
}
