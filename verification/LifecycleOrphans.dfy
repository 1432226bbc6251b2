/** No orphans on any run: when the finalizer goes, nothing labelled with the cluster's UID is left, and the Foundation
    Work is never deleted before the Instance Work is gone (internal/controller/virtualcluster_controller.go:517-573). */
module LifecycleOrphans {
  import opened Api
  import opened Resolution
  import opened Lifecycle
  import opened LifecycleInvariants
  import Labels

  // ---- runs --------------------------------------------------------------------------------------

  /** Every action of the run was allowed where it was taken. */
  ghost predicate Allowed(cfg: Config, w: World, actions: seq<Action>, ok: (World, Action) -> bool) {
    forall i :: 0 <= i < |actions| ==> ok(Run(cfg, w, actions[..i]), actions[i])
  }

  lemma AllowedPrefix(cfg: Config, w: World, actions: seq<Action>, ok: (World, Action) -> bool)
    requires actions != [] && Allowed(cfg, w, actions, ok)
    ensures Allowed(cfg, w, actions[..|actions| - 1], ok)
    ensures ok(Run(cfg, w, actions[..|actions| - 1]), actions[|actions| - 1])
  {
    var init := actions[..|actions| - 1];
    forall i | 0 <= i < |init| ensures ok(Run(cfg, w, init[..i]), init[i]) {
      assert init[..i] == actions[..i];
    }
  }

  lemma InitIsSound(cfg: Config, w: World)
    requires Init(w)
    ensures Sound(cfg, w) && CellsBacked(w)
  {
  }

  /** The invariant holds on every run of every environment. */
  lemma {:induction false} AlwaysSound(cfg: Config, w: World, actions: seq<Action>)
    requires Usable(cfg) && Init(w)
    ensures Sound(cfg, Run(cfg, w, actions)) && CellsBacked(Run(cfg, w, actions))
    decreases |actions|
  {
    if actions == [] {
      InitIsSound(cfg, w);
    } else {
      var init := actions[..|actions| - 1];
      AlwaysSound(cfg, w, init);
      ApplyKeepsSound(cfg, Run(cfg, w, init), actions[|actions| - 1]);
      ApplyKeepsBacked(cfg, Run(cfg, w, init), actions[|actions| - 1]);
    }
  }

  // ---- where the Works of a cluster are ----------------------------------------------------------

  /** No cluster is created between the Cell reconciler's list and its removal of the finalizer. */
  predicate CellStays(w: World, a: Action) {
    a.OnCell? && a.onCell.DropCell? ==> w.vc.None?
  }

  /** The Cell stays, and it is not moved to another managed cluster while a deleted cluster has no saved snapshot. The
      webhook does not ask the latter, because it ignores clusters that are being deleted. */
  predicate Steady(w: World, a: Action) {
    && CellStays(w, a)
    && (a.OnCell? && a.onCell.EditCell? && w.cell.Some? && w.vc.Some? && w.vc.value.deleting && w.vc.value.status.resolved == NO_SNAPSHOT ==>
      a.onCell.cellSpec.managedCluster == w.cell.value.spec.managedCluster)
  }

  /** The managed cluster that a deletion round will look in: the saved one, or else the Cell's, which then cannot go. */
  predicate HomeIs(vc: Cluster, cell: Option<Cell>, home: string) {
    if vc.status.resolved != NO_SNAPSHOT then home == vc.status.resolved.managedCluster
    else cell.Some? && cell.value.finalizer && cell.value.spec.managedCluster == home
  }

  predicate WorksHomed(vc: Cluster, cell: Option<Cell>, works: map<Key, Work>) {
    forall k :: k in works && works[k].Uid() == vc.uid ==> HomeIs(vc, cell, k.0)
  }

  predicate HasHome(task: Task) {
    task.FindInstance? || task.FindFoundation? || task.DeleteWork? || task.RemoveFinalizer?
  }

  predicate AllAt(works: map<Key, Work>, uid: string, home: string) {
    forall k :: k in works && works[k].Uid() == uid ==> k.0 == home
  }

  /** What the worker holds agrees with where the Works are. */
  predicate WorkerHomed(vc: Cluster, cell: Option<Cell>, works: map<Key, Work>, k: Worker) {
    && (Engaged(k) && k.Copy().status.resolved != NO_SNAPSHOT ==> HomeIs(vc, cell, k.Copy().status.resolved.managedCluster))
    && (k.ReadClass? && k.cell.finalizer && vc.status.resolved == NO_SNAPSHOT ==> HomeIs(vc, cell, k.cell.spec.managedCluster))
    && (k.Cleanup? && HasHome(k.task) ==> AllAt(works, vc.uid, k.task.home))
  }

  predicate Homed(w: World) {
    w.vc.Some? ==> WorksHomed(w.vc.value, w.cell, w.works) && WorkerHomed(w.vc.value, w.cell, w.works, w.worker)
  }

  lemma ProvisionStaysHome(cfg: Config, w: World, answer: Answer)
    requires Usable(cfg) && Sound(cfg, w) && Homed(w) && w.worker.Provision?
    ensures Homed(RunStep(cfg, w, answer))
  {
    var r, stage := w.worker.round, w.worker.stage;
    ProvisionGoesOn(cfg, w.works, w.secrets, r, stage, answer);
    ProvisionWrites(cfg, w.works, w.secrets, r, stage, answer);
    assert r.resolved.managedCluster == r.cell.spec.managedCluster && r.resolved.hostNamespace != "";
    assert TargetKey(cfg, r, stage).0 == r.cluster.status.resolved.managedCluster;
  }

  lemma CleanupStaysHome(cfg: Config, w: World, answer: Answer)
    requires Attached(w) && Homed(w) && w.worker.Cleanup?
    ensures Homed(RunStep(cfg, w, answer))
  {
    var c, task := w.worker.cluster, w.worker.task;
    if !task.RemoveFinalizer? {
      CleanupGoesOn(cfg, w, c, task, answer);
      CleanupRemoves(cfg, w, c, task, answer);
      DeletionOnlyMarks(w.works, if task.DeleteWork? then task.key else ("", ""), answer.lingers);
      CleanupStaysAt(cfg, w, c, task, answer);
    }
  }

  lemma CleanupStaysAt(cfg: Config, w: World, c: Cluster, task: Task, answer: Answer)
    requires !task.RemoveFinalizer? && WorksHomed(c, w.cell, w.works) && (HasHome(task) ==> AllAt(w.works, c.uid, task.home))
    requires SnapshotForm(c.status.resolved)
    ensures var k := CleanupStep(cfg, w, c, task, answer).worker; k.Cleanup? && HasHome(k.task) ==> AllAt(w.works, c.uid, k.task.home)
  {
  }

  lemma ReadStaysHome(cfg: Config, w: World, answer: Answer)
    requires Usable(cfg) && Attached(w) && CellsSound(w) && Homed(w) && w.worker.ReadClass?
    ensures Homed(RunStep(cfg, w, answer))
  {
    if !answer.fails && w.class_.Some? {
      EvaluatedCopy(cfg, w.worker.cluster, w.worker.cell, w.class_.value, answer.addresses);
      SnapshotAfterHasForm(cfg, w.worker.cluster, w.worker.cell, w.class_.value);
    }
  }

  lemma StepStaysHome(cfg: Config, w: World, answer: Answer)
    requires Usable(cfg) && Sound(cfg, w) && Homed(w)
    ensures Homed(RunStep(cfg, w, answer))
  {
    match w.worker
    case Provision(_, _) => ProvisionStaysHome(cfg, w, answer);
    case Cleanup(_, _) => CleanupStaysHome(cfg, w, answer);
    case ReadClass(_, _) => ReadStaysHome(cfg, w, answer);
    case SaveStatus(_) => SaveStaysHome(cfg, w, answer);
    case _ => StartStaysHome(cfg, w, answer);
  }

  lemma SaveStaysHome(cfg: Config, w: World, answer: Answer)
    requires Attached(w) && Homed(w) && w.worker.SaveStatus?
    ensures Homed(RunStep(cfg, w, answer))
  {
  }

  lemma StartStaysHome(cfg: Config, w: World, answer: Answer)
    requires Attached(w) && Homed(w) && (w.worker.Idle? || w.worker.AddFinalizer? || w.worker.ReadCell?)
    ensures Homed(RunStep(cfg, w, answer))
  {
  }

  lemma CellStaysHome(w: World, a: CellAction)
    requires Homed(w) && Steady(w, OnCell(a))
    ensures Homed(w.(cell := CellAfter(w.cell, w.vc, a)))
  {
    if w.vc.Some? {
      var after := CellAfter(w.cell, w.vc, a);
      HomeIsKept(w, a);
      assert forall k :: k in w.works && w.works[k].Uid() == w.vc.value.uid ==> HomeIs(w.vc.value, w.cell, k.0);
    }
  }

  lemma HomeIsKept(w: World, a: CellAction)
    requires w.vc.Some? && Steady(w, OnCell(a))
    ensures forall home :: HomeIs(w.vc.value, w.cell, home) ==> HomeIs(w.vc.value, CellAfter(w.cell, w.vc, a), home)
  {
  }

  lemma UserStaysHome(w: World, a: UserAction)
    requires Attached(w) && Homed(w)
    ensures Homed(UserActs(w, a))
  {
  }

  lemma LessStaysHome(w: World, w': World)
    requires Homed(w) && w.vc.Some? && w' == w.(works := w'.works, secrets := w'.secrets) && NothingNew(w.vc.value.uid, w, w')
    ensures Homed(w')
  {
  }

  lemma OthersStayHome(cfg: Config, w: World, a: Action)
    requires Attached(w) && Homed(w) && Steady(w, a) && !a.Step?
    ensures Homed(Apply(cfg, w, a))
  {
    match a
    case Crash =>
    case User(u) => UserStaysHome(w, u);
    case OnCell(c) => CellStaysHome(w, c);
    case OnClass(_) =>
    case OnObject(o) =>
      if w.vc.Some? {
        ObjectsAddNothing(w, o, w.vc.value.uid);
        LessStaysHome(w, ObjectsAfter(w, o));
      }
  }

  // ---- ownership ---------------------------------------------------------------------------------

  /** Every Work labelled with a UID that this name has had belongs to the cluster that exists and holds the finalizer. */
  predicate WorksOwned(w: World) {
    forall k :: k in w.works && w.works[k].Uid() in w.issued ==> w.vc.Some? && w.vc.value.finalizer && w.works[k].Uid() == w.vc.value.uid
  }

  predicate SecretsOwned(w: World) {
    forall s :: s in w.secrets && w.secrets[s] in w.issued ==> w.vc.Some? && w.vc.value.finalizer && w.secrets[s] == w.vc.value.uid
  }

  /** What the controller leaves when it removes the finalizer is exactly what is not at the home it looked in. */
  lemma RemovalLeavesOthersHomes(cfg: Config, w: World, answer: Answer)
    requires Sound(cfg, w) && WorksOwned(w)
    requires w.worker.Cleanup? && w.worker.task.RemoveFinalizer? && !answer.fails && Current(w, w.worker.cluster)
    ensures var w' := RunStep(cfg, w, answer);
      w'.vc.None? && (WorksOwned(w') <==> AllAt(w.works, w.vc.value.uid, w.worker.task.home))
  {
    var uid, home := w.vc.value.uid, w.worker.task.home;
    assert forall k :: k in w.works && w.works[k].Uid() == uid ==> WorkNamed(cfg, k, uid);
    assert forall k: Key :: k.0 == home && WorkNamed(cfg, k, uid) ==> k == InstanceKey(cfg, home, uid) || k == FoundationKey(cfg, home, uid);
  }

  lemma StepKeepsWorksOwned(cfg: Config, w: World, answer: Answer)
    requires Sound(cfg, w) && Homed(w) && WorksOwned(w)
    ensures WorksOwned(RunStep(cfg, w, answer))
  {
    if w.worker.Cleanup? && w.worker.task.RemoveFinalizer? {
      if !answer.fails && Current(w, w.worker.cluster) {
        RemovalLeavesOthersHomes(cfg, w, answer);
      }
    } else {
      OtherStepsKeepOwned(cfg, w, answer);
    }
  }

  lemma OtherStepsKeepOwned(cfg: Config, w: World, answer: Answer)
    requires Attached(w) && !(w.worker.Cleanup? && w.worker.task.RemoveFinalizer?)
    ensures WorksOwned(w) ==> WorksOwned(RunStep(cfg, w, answer))
    ensures SecretsOwned(w) ==> SecretsOwned(RunStep(cfg, w, answer))
  {
    match w.worker
    case Provision(_, _) => ProvisionKeepsOwned(cfg, w, answer);
    case Cleanup(_, _) => CleanupKeepsOwned(cfg, w, answer);
    case _ => ReadsKeepOwned(cfg, w, answer);
  }

  lemma ReadsKeepOwned(cfg: Config, w: World, answer: Answer)
    requires Attached(w) && !w.worker.Provision? && !w.worker.Cleanup?
    ensures WorksOwned(w) ==> WorksOwned(RunStep(cfg, w, answer))
    ensures SecretsOwned(w) ==> SecretsOwned(RunStep(cfg, w, answer))
  {
  }

  lemma CleanupKeepsOwned(cfg: Config, w: World, answer: Answer)
    requires w.worker.Cleanup? && !w.worker.task.RemoveFinalizer?
    ensures WorksOwned(w) ==> WorksOwned(RunStep(cfg, w, answer))
    ensures SecretsOwned(w) ==> SecretsOwned(RunStep(cfg, w, answer))
  {
    var task := w.worker.task;
    CleanupRemoves(cfg, w, w.worker.cluster, task, answer);
    DeletionOnlyMarks(w.works, if task.DeleteWork? then task.key else ("", ""), answer.lingers);
  }

  lemma ProvisionKeepsOwned(cfg: Config, w: World, answer: Answer)
    requires Attached(w) && w.worker.Provision?
    ensures WorksOwned(w) ==> WorksOwned(RunStep(cfg, w, answer))
    ensures SecretsOwned(w) ==> SecretsOwned(RunStep(cfg, w, answer))
  {
    ProvisionWrites(cfg, w.works, w.secrets, w.worker.round, w.worker.stage, answer);
  }

  lemma UserKeepsOwned(w: World, a: UserAction)
    ensures WorksOwned(w) ==> WorksOwned(UserActs(w, a))
    ensures SecretsOwned(w) ==> SecretsOwned(UserActs(w, a))
  {
  }

  lemma ObjectsKeepOwned(w: World, a: ObjectAction)
    ensures WorksOwned(w) ==> WorksOwned(ObjectsAfter(w, a))
    ensures SecretsOwned(w) ==> SecretsOwned(ObjectsAfter(w, a))
  {
  }

  lemma OthersKeepOwned(cfg: Config, w: World, a: Action)
    requires !a.Step?
    ensures WorksOwned(w) ==> WorksOwned(Apply(cfg, w, a))
    ensures SecretsOwned(w) ==> SecretsOwned(Apply(cfg, w, a))
  {
    if a.User? {
      UserKeepsOwned(w, a.user);
    } else if a.OnObject? {
      ObjectsKeepOwned(w, a.onObject);
    }
  }

  // ---- the theorems ------------------------------------------------------------------------------

  lemma {:induction false} AlwaysHomed(cfg: Config, w: World, actions: seq<Action>)
    requires Usable(cfg) && Init(w) && Allowed(cfg, w, actions, Steady)
    ensures Homed(Run(cfg, w, actions)) && WorksOwned(Run(cfg, w, actions))
    decreases |actions|
  {
    if actions != [] {
      var init, last := actions[..|actions| - 1], actions[|actions| - 1];
      AllowedPrefix(cfg, w, actions, Steady);
      AlwaysHomed(cfg, w, init);
      AlwaysSound(cfg, w, init);
      if last.Step? {
        StepStaysHome(cfg, Run(cfg, w, init), last.answer);
        StepKeepsWorksOwned(cfg, Run(cfg, w, init), last.answer);
      } else {
        OthersStayHome(cfg, Run(cfg, w, init), last);
        OthersKeepOwned(cfg, Run(cfg, w, init), last);
      }
    }
  }

  lemma RemovalLeavesNoSecret(cfg: Config, w: World, answer: Answer)
    requires Attached(w) && Cleared(cfg, w) && SecretsOwned(w) && w.worker.Cleanup? && w.worker.task.RemoveFinalizer?
    ensures SecretsOwned(RunStep(cfg, w, answer))
  {
  }

  /** Secrets are never orphaned, on any run of any environment. */
  lemma {:induction false} NoOrphanSecrets(cfg: Config, w: World, actions: seq<Action>)
    requires Usable(cfg) && Init(w)
    ensures SecretsOwned(Run(cfg, w, actions))
    decreases |actions|
  {
    if actions != [] {
      var init, last := actions[..|actions| - 1], actions[|actions| - 1];
      var before := Run(cfg, w, init);
      NoOrphanSecrets(cfg, w, init);
      AlwaysSound(cfg, w, init);
      if !last.Step? {
        OthersKeepOwned(cfg, before, last);
      } else if before.worker.Cleanup? && before.worker.task.RemoveFinalizer? {
        RemovalLeavesNoSecret(cfg, before, last.answer);
      } else {
        OtherStepsKeepOwned(cfg, before, last.answer);
      }
    }
  }

  /** On every run, crashes included: whatever carries a UID that this name has had belongs to the existing cluster, which
      still holds the finalizer. So when the finalizer goes, no Work and no Secret with that UID is left. */
  lemma NoOrphans(cfg: Config, w: World, actions: seq<Action>)
    requires Usable(cfg) && Init(w) && Allowed(cfg, w, actions, Steady)
    ensures WorksOwned(Run(cfg, w, actions)) && SecretsOwned(Run(cfg, w, actions))
  {
    AlwaysHomed(cfg, w, actions);
    NoOrphanSecrets(cfg, w, actions);
  }

  /** The step removes the Work at the key or asks for its deletion. */
  predicate Deletes(before: World, after: World, key: Key) {
    key in before.works && (key !in after.works || (after.works[key].deleting && !before.works[key].deleting))
  }

  /** On every run: a step that deletes a Foundation Work finds no Instance Work of the cluster in that managed cluster, and on
      a steady run none anywhere. */
  lemma FoundationGoesLast(cfg: Config, w: World, actions: seq<Action>, answer: Answer, key: Key, other: Key)
    requires Usable(cfg) && Init(w)
    ensures var before := Run(cfg, w, actions);
      before.vc.Some? && Deletes(before, RunStep(cfg, before, answer), key) && key.1 == cfg.names(before.vc.value.uid).foundationWork
      && other in before.works && other.1 == cfg.names(before.vc.value.uid).instanceWork
      && (other.0 == key.0 || Allowed(cfg, w, actions, Steady)) ==>
        before.works[other].Uid() != before.vc.value.uid
  {
    var before := Run(cfg, w, actions);
    if before.vc.Some? && Deletes(before, RunStep(cfg, before, answer), key) {
      AlwaysSound(cfg, w, actions);
      OnlyDeletionRemoves(cfg, before, answer, key);
      if Allowed(cfg, w, actions, Steady) {
        AlwaysHomed(cfg, w, actions);
      }
    }
  }

  predicate OwnedInstance(cfg: Config, w: World, uid: string, k: Key) {
    k in w.works && w.works[k].Uid() == uid && k.1 == cfg.names(uid).instanceWork
  }

  /** Exactly, before any deletion of a Foundation Work: no Instance Work of the cluster is left anywhere if and only if those that
      are left are all in the managed cluster that was looked in. */
  lemma FoundationLastIff(cfg: Config, w: World)
    requires Sound(cfg, w) && Usable(cfg) && w.worker.Cleanup? && w.worker.task.DeleteWork?
    requires w.worker.task.key == FoundationKey(cfg, w.worker.task.home, w.worker.cluster.uid)
    ensures var uid := w.worker.cluster.uid;
      (forall k :: !OwnedInstance(cfg, w, uid, k)) <==> forall k :: OwnedInstance(cfg, w, uid, k) ==> k.0 == w.worker.task.home
  {
    var uid, home := w.worker.cluster.uid, w.worker.task.home;
    assert forall k: Key :: k.0 == home && k.1 == cfg.names(uid).instanceWork ==> k == InstanceKey(cfg, home, uid);
  }

  lemma OnlyDeletionRemoves(cfg: Config, w: World, answer: Answer, key: Key)
    requires Deletes(w, RunStep(cfg, w, answer), key)
    ensures w.worker.Cleanup? && w.worker.task.DeleteWork? && w.worker.task.key == key
  {
    match w.worker
    case Provision(r, stage) => ProvisionMarksNothing(cfg, w.works, w.secrets, r, stage, answer);
    case Cleanup(c, task) =>
      if !task.RemoveFinalizer? {
        CleanupRemoves(cfg, w, c, task, answer);
      }
    case _ =>
  }

  lemma ProvisionMarksNothing(cfg: Config, works: map<Key, Work>, secrets: map<string, string>, r: Round, stage: Stage, answer: Answer)
    ensures var o := ProvisionStep(cfg, works, secrets, r, stage, answer);
      forall k :: k in works ==> k in o.works && o.works[k].deleting == works[k].deleting
  {
  }

  // ---- without the assumption --------------------------------------------------------------------

  /** Nothing fails, nothing lingers and there is no observer. */
  const SMOOTH := Answer(false, [], NoObserver, true, MirrorFailed, false)

  lemma RunExtends(cfg: Config, w: World, actions: seq<Action>, a: Action)
    ensures Run(cfg, w, actions + [a]) == Apply(cfg, Run(cfg, w, actions), a)
  {
    var all := actions + [a];
    assert all[..|all| - 1] == actions;
  }

  /** The deletion round of a cluster without a snapshot whose Cell names a managed cluster that holds none of its Works. */
  lemma CleanupElsewhere(cfg: Config, w: World) returns (actions: seq<Action>)
    requires w.worker.Idle? && w.vc.Some? && w.cell.Some?
    requires w.vc.value.finalizer && w.vc.value.deleting && w.vc.value.status.resolved == NO_SNAPSHOT
    requires var uid := w.vc.value.uid; var home := w.cell.value.spec.managedCluster;
      SecretName(cfg, uid) !in w.secrets && InstanceKey(cfg, home, uid) !in w.works && FoundationKey(cfg, home, uid) !in w.works
    ensures Run(cfg, w, actions) == w.(vc := None)
  {
    var c, home := w.vc.value, w.cell.value.spec.managedCluster;
    var step := Step(SMOOTH);
    actions := [];
    var tasks := [CheckSecret, Locate, FindInstance(home), FindFoundation(home, None), RemoveFinalizer(home)];
    actions := actions + [step];
    RunExtends(cfg, w, [], step);
    assert Run(cfg, w, actions) == w.(worker := Cleanup(c, CheckSecret));
    for i := 0 to 4
      invariant Run(cfg, w, actions) == w.(worker := Cleanup(c, tasks[i]))
    {
      RunExtends(cfg, w, actions, step);
      assert CleanupStep(cfg, Run(cfg, w, actions), c, tasks[i], SMOOTH) == Outcome(w.works, w.secrets, Cleanup(c, tasks[i + 1]));
      actions := actions + [step];
    }
    RunExtends(cfg, w, actions, step);
    actions := actions + [step];
  }

  lemma {:induction false} RunsCompose(cfg: Config, w: World, first: seq<Action>, second: seq<Action>)
    ensures Run(cfg, w, first + second) == Run(cfg, Run(cfg, w, first), second)
    decreases |second|
  {
    if second == [] {
      assert first + second == first;
    } else {
      var init, last := second[..|second| - 1], second[|second| - 1];
      RunsCompose(cfg, w, first, init);
      RunExtends(cfg, w, first + init, last);
      assert first + init + [last] == first + second;
    }
  }

  lemma WrittenMayBePatched(cfg: Config, uid: string, resolved: Snapshot)
    ensures Labels.MatchesOwnedHostLabels(WorkLabels(cfg, uid, resolved), cfg.cellName, cfg.namespace, cfg.name, uid)
    ensures Labels.Get(WorkLabels(cfg, uid, resolved), Labels.ClusterUid) == uid
  {
    var labels := WorkLabels(cfg, uid, resolved);
    Labels.LabelsIdentifyTheOwner(map[], cfg.cellName, cfg.namespace, cfg.name, uid, resolved.profileHash, cfg.cellName, cfg.namespace, cfg.name, uid);
    assert map[] + labels == labels;
  }

  lemma WriteOnce(cfg: Config, w: World) returns (work: Work)
    requires w.worker.Provision? && w.worker.stage == WriteFoundation(false) && w.vc.Some? && w.vc.value.uid == w.worker.round.cluster.uid
    requires FoundationKey(cfg, w.worker.round.cell.spec.managedCluster, w.vc.value.uid) !in w.works
    ensures work.Uid() == w.vc.value.uid && MayPatch(cfg, work, w.vc.value.uid)
    ensures RunStep(cfg, w, SMOOTH) == w.(worker := Provision(w.worker.round, ReadFoundation),
      works := w.works[FoundationKey(cfg, w.worker.round.cell.spec.managedCluster, w.vc.value.uid) := work])
  {
    var r := w.worker.round;
    work := Work(WorkLabels(cfg, r.cluster.uid, r.resolved), FoundationSpec(r.resolved, r.addresses), false, false, false);
    WrittenMayBePatched(cfg, r.cluster.uid, r.resolved);
  }

  /** A round writes the Foundation Work and crashes before it saves the snapshot. */
  lemma WriteThenCrash(cfg: Config, w: World) returns (actions: seq<Action>, work: Work)
    requires w.worker.Provision? && w.worker.stage == WriteFoundation(false) && w.vc.Some? && w.vc.value.uid == w.worker.round.cluster.uid
    requires FoundationKey(cfg, w.worker.round.cell.spec.managedCluster, w.vc.value.uid) !in w.works
    ensures work.Uid() == w.vc.value.uid && MayPatch(cfg, work, w.vc.value.uid)
    ensures Run(cfg, w, actions) == w.(worker := Idle,
      works := w.works[FoundationKey(cfg, w.worker.round.cell.spec.managedCluster, w.vc.value.uid) := work])
  {
    work := WriteOnce(cfg, w);
    RunExtends(cfg, w, [], Step(SMOOTH));
    RunExtends(cfg, w, [] + [Step(SMOOTH)], Crash);
    actions := [] + [Step(SMOOTH)] + [Crash];
  }

  lemma DeleteThenMove(cfg: Config, w: World, moved: CellSpec) returns (actions: seq<Action>)
    requires w.vc.Some? && w.vc.value.finalizer && w.cell.Some? && ValidCell(moved)
    ensures Run(cfg, w, actions) == w.(vc := Some(w.vc.value.(deleting := true, version := w.vc.value.version + 1)), cell := Some(w.cell.value.(spec := moved, dropping := false)))
  {
    RunExtends(cfg, w, [], User(DeleteCluster));
    RunExtends(cfg, w, [] + [User(DeleteCluster)], OnCell(EditCell(moved)));
    actions := [] + [User(DeleteCluster)] + [OnCell(EditCell(moved))];
  }

  /** Without the assumption Works are orphaned: a round writes the Foundation Work and crashes before it saves the
      snapshot, the user deletes the cluster, and the Cell is then moved to another managed cluster. */
  lemma MovedCellLeavesOrphan(cfg: Config, w: World, moved: CellSpec) returns (actions: seq<Action>)
    requires Attached(w) && w.worker.Provision? && w.worker.stage == WriteFoundation(false)
    requires w.vc.value.status.resolved == NO_SNAPSHOT && w.cell.Some?
    requires ValidCell(moved) && moved.managedCluster != w.worker.round.cell.spec.managedCluster
    requires var uid := w.vc.value.uid;
      && FoundationKey(cfg, w.worker.round.cell.spec.managedCluster, uid) !in w.works && SecretName(cfg, uid) !in w.secrets
      && InstanceKey(cfg, moved.managedCluster, uid) !in w.works && FoundationKey(cfg, moved.managedCluster, uid) !in w.works
    ensures Run(cfg, w, actions).vc.None? && !WorksOwned(Run(cfg, w, actions))
  {
    var crashed, work := WriteThenCrash(cfg, w);
    var w1 := Run(cfg, w, crashed);
    var moving := DeleteThenMove(cfg, w1, moved);
    var w2 := Run(cfg, w1, moving);
    var rest := CleanupElsewhere(cfg, w2);
    RunsCompose(cfg, w, crashed, moving);
    RunsCompose(cfg, w, crashed + moving, rest);
    actions := crashed + moving + rest;
    var key := FoundationKey(cfg, w.worker.round.cell.spec.managedCluster, w.vc.value.uid);
    assert w2.works[key].Uid() in w2.issued;
  }
}
