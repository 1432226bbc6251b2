/** Who may write what, and when: ownership of Works and Secrets, the gate in front of the Instance Work, the survival of
    mirrored objects, and what phase Ready means (internal/controller/virtualcluster_controller.go:97-102, 137-325). */
module LifecycleGates {
  import opened Api
  import opened Resolution
  import opened Lifecycle
  import opened LifecycleInvariants
  import opened LifecycleOrphans
  import CellController
  import Feasibility
  import Plan

  // ---- ownership ---------------------------------------------------------------------------------

  /** During a round nobody else places a Work or a Secret under a derived name of the cluster that is worked on: the
      controller checks labels before it writes, not while. Placing anything else is allowed at any time. */
  predicate Calm(cfg: Config, w: World, a: Action) {
    !w.worker.Idle? && a.OnObject? ==>
      && (a.onObject.PlaceWork? ==> !WorkNamed(cfg, a.onObject.key, w.worker.Copy().uid))
      && (a.onObject.PlaceSecret? ==> a.onObject.secret != SecretName(cfg, w.worker.Copy().uid))
  }

  function Calmly(cfg: Config): (World, Action) -> bool {
    (w, a) => Calm(cfg, w, a)
  }

  predicate OwnedAt(works: map<Key, Work>, key: Key, uid: string) {
    key in works ==> works[key].Uid() == uid
  }

  /** What the ownership checks of a round have established and calm keeps true. */
  predicate StageOwned(cfg: Config, r: Round, stage: Stage, works: map<Key, Work>) {
    var home, uid := r.cell.spec.managedCluster, r.cluster.uid;
    && (stage.WriteFoundation? && stage.patch ==> OwnedAt(works, FoundationKey(cfg, home, uid), uid))
    && (stage.ReadFoundation? ==> OwnedAt(works, FoundationKey(cfg, home, uid), uid))
    && (stage.ReadInstance? ==> stage.passed.Uid() == uid)
    && (stage.ObserveChild? || stage.PublishSecret? || stage.CollectMirror? || stage.CheckInstance? || stage.WriteInstance? ==>
      stage.gate.foundation.Uid() == uid)
    && (stage.WriteInstance? && stage.patch ==> OwnedAt(works, InstanceKey(cfg, home, uid), uid))
  }

  predicate TaskOwned(cfg: Config, uid: string, task: Task, works: map<Key, Work>, secrets: map<string, string>) {
    && (task.DeleteSecret? ==> SecretName(cfg, uid) in secrets ==> secrets[SecretName(cfg, uid)] == uid)
    && (task.FindFoundation? ==>
      var key := InstanceKey(cfg, task.home, uid);
      key in works ==> task.instance.Some? && works[key].Uid() == task.instance.value.Uid())
    && (task.DeleteWork? ==> OwnedAt(works, task.key, uid))
  }

  predicate Checked(cfg: Config, w: World) {
    && (w.worker.Provision? ==> StageOwned(cfg, w.worker.round, w.worker.stage, w.works))
    && (w.worker.Cleanup? ==> TaskOwned(cfg, w.worker.cluster.uid, w.worker.task, w.works, w.secrets))
  }

  lemma ProvisionKeepsChecked(cfg: Config, works: map<Key, Work>, secrets: map<string, string>, r: Round, stage: Stage, answer: Answer)
    requires StageOwned(cfg, r, stage, works)
    ensures var o := ProvisionStep(cfg, works, secrets, r, stage, answer); o.worker.Provision? ==> StageOwned(cfg, o.worker.round, o.worker.stage, o.works)
  {
    ProvisionWrites(cfg, works, secrets, r, stage, answer);
  }

  lemma CleanupKeepsChecked(cfg: Config, w: World, c: Cluster, task: Task, answer: Answer)
    requires Usable(cfg) && !task.RemoveFinalizer? && TaskOwned(cfg, c.uid, task, w.works, w.secrets)
    requires TaskCleared(cfg, c.uid, task, w.works, w.secrets)
    ensures var o := CleanupStep(cfg, w, c, task, answer); o.worker.Cleanup? ==> TaskOwned(cfg, c.uid, o.worker.task, o.works, o.secrets)
  {
  }

  lemma StepKeepsChecked(cfg: Config, w: World, answer: Answer)
    requires Usable(cfg) && Cleared(cfg, w) && Checked(cfg, w)
    ensures Checked(cfg, RunStep(cfg, w, answer))
  {
    match w.worker
    case ReadClass(c, cell) =>
      if !answer.fails && w.class_.Some? {
        EvaluatedHolds(cfg, c, cell, w.class_.value, answer.addresses);
      }
    case Provision(r, stage) =>
      ProvisionKeepsChecked(cfg, w.works, w.secrets, r, stage, answer);
      ProvisionGoesOn(cfg, w.works, w.secrets, r, stage, answer);
    case Cleanup(c, task) =>
      if !task.RemoveFinalizer? {
        CleanupKeepsChecked(cfg, w, c, task, answer);
        CleanupGoesOn(cfg, w, c, task, answer);
      }
    case _ =>
  }

  /** Between two calls of a calm round what has a derived name only goes away or changes its status. */
  lemma CalmAddsNothing(cfg: Config, w: World, a: ObjectAction)
    requires Calm(cfg, w, OnObject(a)) && !w.worker.Idle?
    ensures var w' := ObjectsAfter(w, a); var uid := w.worker.Copy().uid;
      && w' == w.(works := w'.works, secrets := w'.secrets)
      && (forall k :: k in w'.works && WorkNamed(cfg, k, uid) ==> k in w.works && w'.works[k].labels == w.works[k].labels)
      && (SecretName(cfg, uid) in w'.secrets ==>
        SecretName(cfg, uid) in w.secrets && w'.secrets[SecretName(cfg, uid)] == w.secrets[SecretName(cfg, uid)])
  {
  }

  lemma ObjectsKeepChecked(cfg: Config, w: World, a: ObjectAction)
    requires Cleared(cfg, w) && Checked(cfg, w) && Calm(cfg, w, OnObject(a))
    ensures Checked(cfg, ObjectsAfter(w, a))
  {
    if !w.worker.Idle? {
      CalmAddsNothing(cfg, w, a);
    }
  }

  lemma ApplyKeepsChecked(cfg: Config, w: World, a: Action)
    requires Usable(cfg) && Cleared(cfg, w) && Checked(cfg, w) && Calm(cfg, w, a)
    ensures Checked(cfg, Apply(cfg, w, a))
  {
    match a
    case Step(answer) => StepKeepsChecked(cfg, w, answer);
    case OnObject(o) => ObjectsKeepChecked(cfg, w, o);
    case _ =>
  }

  lemma {:induction false} AlwaysChecked(cfg: Config, w: World, actions: seq<Action>)
    requires Usable(cfg) && Init(w) && Allowed(cfg, w, actions, Calmly(cfg))
    ensures Checked(cfg, Run(cfg, w, actions))
    decreases |actions|
  {
    if actions != [] {
      var init := actions[..|actions| - 1];
      AllowedPrefix(cfg, w, actions, Calmly(cfg));
      AlwaysChecked(cfg, w, init);
      AlwaysSound(cfg, w, init);
      ApplyKeepsChecked(cfg, Run(cfg, w, init), actions[|actions| - 1]);
    }
  }

  /** Whatever carries another UID survives the step as it is; publishing the admin Secret is the exception. */
  predicate ForeignUntouched(before: World, after: World, uid: string) {
    && WorksUntouched(before.works, after.works, uid)
    && (!(before.worker.Provision? && before.worker.stage.PublishSecret?) ==>
      forall s :: s in before.secrets && before.secrets[s] != uid ==> s in after.secrets && after.secrets[s] == before.secrets[s])
  }

  /** The Work that the next successful step patches, removes or marks, if any. */
  function TouchedWork(cfg: Config, w: World, answer: Answer): Option<Key> {
    if w.worker.Provision? && (w.worker.stage.WriteFoundation? || w.worker.stage.WriteInstance?) && w.worker.stage.patch
    then Some(TargetKey(cfg, w.worker.round, w.worker.stage))
    else if w.worker.Cleanup? && w.worker.task.DeleteWork? && !(w.worker.task.key in w.works && w.works[w.worker.task.key].deleting && answer.lingers)
    then Some(w.worker.task.key)
    else None
  }

  function TouchedSecret(cfg: Config, w: World): Option<string> {
    if w.worker.Cleanup? && w.worker.task.DeleteSecret? then Some(SecretName(cfg, w.worker.cluster.uid)) else None
  }

  /** What is there now, at the moment of the call, is absent or the cluster's own. */
  predicate TargetsOwned(cfg: Config, w: World, answer: Answer) {
    !w.worker.Idle? ==>
      var uid := w.worker.Copy().uid;
      && (TouchedWork(cfg, w, answer).Some? ==> OwnedAt(w.works, TouchedWork(cfg, w, answer).value, uid))
      && (TouchedSecret(cfg, w).Some? && TouchedSecret(cfg, w).value in w.secrets ==> w.secrets[TouchedSecret(cfg, w).value] == uid)
  }

  predicate WorksUntouched(before: map<Key, Work>, after: map<Key, Work>, uid: string) {
    forall k :: k in before && before[k].Uid() != uid ==> k in after && after[k] == before[k]
  }

  /** A patch puts the round's UID on whatever is there; a create finds nothing there or fails. */
  lemma PutTouches(cfg: Config, works: map<Key, Work>, key: Key, uid: string, resolved: Snapshot, spec: WorkSpec, patch: bool)
    ensures var put := PutWork(works, key, WorkLabels(cfg, uid, resolved), spec, patch);
      WorksUntouched(works, if put.Some? then put.value else works, uid) <==> (patch ==> OwnedAt(works, key, uid))
  {
    PutIsOwned(cfg, works, key, uid, resolved, spec, patch);
  }

  lemma PatchTouches(cfg: Config, w: World, answer: Answer)
    requires w.worker.Provision? && !answer.fails && (w.worker.stage.WriteFoundation? || w.worker.stage.WriteInstance?)
    ensures ForeignUntouched(w, RunStep(cfg, w, answer), w.worker.Copy().uid) <==> TargetsOwned(cfg, w, answer)
  {
    var r, stage := w.worker.round, w.worker.stage;
    var spec := if stage.WriteFoundation? then FoundationSpec(r.resolved, r.addresses) else InstanceSpec(r.resolved, r.addresses, stage.intent.mirrored);
    PutTouches(cfg, w.works, TargetKey(cfg, r, stage), r.cluster.uid, r.resolved, spec, stage.patch);
  }

  lemma ProvisionTouches(cfg: Config, w: World, answer: Answer)
    requires w.worker.Provision? && !answer.fails
    ensures ForeignUntouched(w, RunStep(cfg, w, answer), w.worker.Copy().uid) <==> TargetsOwned(cfg, w, answer)
  {
    if w.worker.stage.WriteFoundation? || w.worker.stage.WriteInstance? {
      PatchTouches(cfg, w, answer);
    } else {
      ProvisionWrites(cfg, w.works, w.secrets, w.worker.round, w.worker.stage, answer);
    }
  }

  lemma CleanupTouches(cfg: Config, w: World, answer: Answer)
    requires w.worker.Cleanup? && !answer.fails
    ensures ForeignUntouched(w, RunStep(cfg, w, answer), w.worker.Copy().uid) <==> TargetsOwned(cfg, w, answer)
  {
    if !w.worker.task.RemoveFinalizer? {
      CleanupRemoves(cfg, w, w.worker.cluster, w.worker.task, answer);
    }
  }

  /** The exact condition, in any state with a round running: a successful step leaves every foreign Work and Secret as it is
      if and only if what is now at the key that it patches or deletes is absent or carries the round's UID. */
  lemma ForeignUntouchedIff(cfg: Config, w: World, answer: Answer)
    requires !w.worker.Idle? && !answer.fails
    ensures ForeignUntouched(w, RunStep(cfg, w, answer), w.worker.Copy().uid) <==> TargetsOwned(cfg, w, answer)
  {
    match w.worker
    case Provision(_, _) => ProvisionTouches(cfg, w, answer);
    case Cleanup(_, _) => CleanupTouches(cfg, w, answer);
    case _ =>
  }

  /** A failed call touches nothing. */
  lemma FailureTouchesNothing(cfg: Config, w: World, answer: Answer)
    requires answer.fails
    ensures RunStep(cfg, w, answer).works == w.works && RunStep(cfg, w, answer).secrets == w.secrets
  {
  }

  lemma CheckedTargets(cfg: Config, w: World, answer: Answer)
    requires Checked(cfg, w)
    ensures TargetsOwned(cfg, w, answer)
  {
  }

  /** No step of any calm run patches or deletes a Work, or deletes a Secret, of another cluster's UID. */
  lemma OwnershipIsRespected(cfg: Config, w: World, actions: seq<Action>, answer: Answer)
    requires Usable(cfg) && Init(w) && Allowed(cfg, w, actions, Calmly(cfg))
    ensures var before := Run(cfg, w, actions); var after := RunStep(cfg, before, answer);
      if before.worker.Idle? then after.works == before.works && after.secrets == before.secrets
      else ForeignUntouched(before, after, before.worker.Copy().uid)
  {
    AlwaysChecked(cfg, w, actions);
    var before := Run(cfg, w, actions);
    CheckedTargets(cfg, before, answer);
    if answer.fails {
      FailureTouchesNothing(cfg, before, answer);
    } else if !before.worker.Idle? {
      ForeignUntouchedIff(cfg, before, answer);
    }
  }

  // ---- the provisioning gate ---------------------------------------------------------------------

  /** The step gives the Work at the key a new content. */
  predicate Writes(before: World, after: World, key: Key) {
    key in after.works && (key !in before.works || after.works[key].spec != before.works[key].spec)
  }

  lemma OnlyRoundsWrite(cfg: Config, w: World, answer: Answer, key: Key)
    requires Writes(w, RunStep(cfg, w, answer), key)
    ensures w.worker.Provision? && (w.worker.stage.WriteFoundation? || w.worker.stage.WriteInstance?)
    ensures key == TargetKey(cfg, w.worker.round, w.worker.stage)
    ensures key in w.works ==> w.worker.stage.patch
    ensures var r := w.worker.round;
      RunStep(cfg, w, answer).works[key].spec == (
        if w.worker.stage.WriteFoundation? then FoundationSpec(r.resolved, r.addresses)
        else InstanceSpec(r.resolved, r.addresses, w.worker.stage.intent.mirrored))
  {
    match w.worker
    case Provision(r, stage) => ProvisionWrites(cfg, w.works, w.secrets, r, stage, answer);
    case Cleanup(c, task) =>
      if !task.RemoveFinalizer? {
        CleanupRemoves(cfg, w, c, task, answer);
        DeletionOnlyMarks(w.works, if task.DeleteWork? then task.key else ("", ""), answer.lingers);
      }
    case _ =>
  }

  /** The round behind a write: the finalizer is saved, and the round evaluated Accepted on a Cell read in phase Ready, with
      a resolution that agrees with the snapshot. */
  ghost predicate AcceptedWrite(cfg: Config, before: World, after: World, key: Key) {
    && before.worker.Provision? && before.vc.Some? && before.vc.value.finalizer && before.vc.value.uid == before.worker.round.cluster.uid
    && var r := before.worker.round;
    && r.cell.Status().phase == CellReady && CellController.Backed(r.cell.history)
    && cfg.evaluate(r.cell.spec, r.cell.Status(), r.class_.spec) == Plan.Accepted
    && r.resolved == ResolvedFor(cfg, r.cluster.uid, r.cell, r.class_) && SameProvider(r.cluster.status.resolved, r.resolved)
    && (before.vc.value.status.resolved == NO_SNAPSHOT || before.vc.value.status.resolved == r.cluster.status.resolved)
    && key in after.works && after.works[key].Uid() == r.cluster.uid
  }

  /** An Instance write moreover comes from a round that has read an Applied, not Degraded Foundation Work. */
  predicate GatedWrite(before: World, after: World, key: Key) {
    key in after.works && after.works[key].spec.InstanceSpec? ==>
      && before.worker.Provision? && before.worker.stage.WriteInstance? && after.works[key].spec.resolved == before.worker.round.resolved
      && before.worker.stage.gate.foundation.applied && !before.worker.stage.gate.foundation.degraded
  }

  /** Every Work write of every run is accepted and gated; on a calm run the Foundation Work that opened the gate is owned. */
  lemma WritesAreGated(cfg: Config, w: World, actions: seq<Action>, answer: Answer, key: Key)
    requires Usable(cfg) && Init(w)
    ensures var before := Run(cfg, w, actions); var after := RunStep(cfg, before, answer);
      Writes(before, after, key) ==>
        && AcceptedWrite(cfg, before, after, key) && GatedWrite(before, after, key)
        && (Allowed(cfg, w, actions, Calmly(cfg)) && after.works[key].spec.InstanceSpec? ==>
          before.worker.stage.gate.foundation.Uid() == before.worker.round.cluster.uid)
  {
    var before := Run(cfg, w, actions);
    if Writes(before, RunStep(cfg, before, answer), key) {
      AlwaysSound(cfg, w, actions);
      OnlyRoundsWrite(cfg, before, answer, key);
      ProvisionWrites(cfg, before.works, before.secrets, before.worker.round, before.worker.stage, answer);
      if Allowed(cfg, w, actions, Calmly(cfg)) {
        AlwaysChecked(cfg, w, actions);
      }
    }
  }

  /** What an accepted round knows about the lists behind the Cell it read. */
  ghost predicate FitsLists(r: Round) {
    var h, hard := r.cell.history, r.class_.spec.workloadHard;
    && h.lists.Some?
    && Feasibility.Covered(h.lists.value, hard)
    && (Feasibility.NonNegative(h.lists.value.pods) ==> Feasibility.DevicesFit(h.lists.value, r.cell.spec.profile.devices, hard))
    && Feasibility.PortFree(h.lists.value)
  }

  lemma AcceptedRoundFits(r: Round)
    requires CellController.Backed(r.cell.history) && Plan.Evaluate(r.cell.spec, r.cell.Status(), r.class_.spec) == Plan.Accepted
    ensures FitsLists(r)
  {
    Feasibility.AcceptedIsSound(r.cell.spec, r.cell.history, r.class_.spec);
  }

  lemma ControllerEvaluates(codec: Codec, namespace: string, name: string, cellName: string, cell: CellSpec, status: CellStatus, class_: ClassSpec)
    ensures ConfigFor(codec, namespace, name, cellName).evaluate(cell, status, class_) == Plan.Evaluate(cell, status, class_)
  {
  }

  /** End to end, for the controller's own functions and every run: what a Work is written for fits into the lists that the
      Cell's stored inventory was projected from. */
  lemma InstanceWritesFit(codec: Codec, namespace: string, name: string, cellName: string, w: World, actions: seq<Action>, answer: Answer, key: Key)
    requires Init(w)
    ensures var cfg := ConfigFor(codec, namespace, name, cellName); var before := Run(cfg, w, actions);
      Writes(before, RunStep(cfg, before, answer), key) ==> before.worker.Provision? && FitsLists(before.worker.round)
  {
    var cfg := ConfigFor(codec, namespace, name, cellName);
    var before := Run(cfg, w, actions);
    ControllerIsUsable(codec, namespace, name, cellName);
    WritesAreGated(cfg, w, actions, answer, key);
    if Writes(before, RunStep(cfg, before, answer), key) {
      var r := before.worker.round;
      ControllerEvaluates(codec, namespace, name, cellName, r.cell.spec, r.cell.Status(), r.class_.spec);
      AcceptedRoundFits(r);
    }
  }

  // ---- the mirror --------------------------------------------------------------------------------

  /** An existing Instance Work of the cluster gets new content only from a round that observed its applied Work, found the
      child API up and listed the Ingresses; and a reconcile round never removes it. */
  lemma MirrorSurvives(cfg: Config, w: World, actions: seq<Action>, answer: Answer, key: Key)
    requires Usable(cfg) && Init(w)
    requires var before := Run(cfg, w, actions);
      before.vc.Some? && key in before.works && before.works[key].Uid() == before.vc.value.uid && key.1 == cfg.names(before.vc.value.uid).instanceWork
    ensures var before := Run(cfg, w, actions); var after := RunStep(cfg, before, answer);
      && (key !in after.works ==> before.worker.Cleanup?)
      && (Writes(before, after, key) ==>
        && before.worker.Provision? && before.worker.stage.WriteInstance?
        && var status, stage := before.worker.round.cluster.status, before.worker.stage;
        && stage.intent.observedOk && stage.intent.mirrorOk && status.observed && status.child.api
        && stage.gate.instance.Some? && stage.gate.instance.value.applied
        && after.works[key].spec.mirrored == stage.intent.mirrored)
  {
    var before := Run(cfg, w, actions);
    var after := RunStep(cfg, before, answer);
    AlwaysSound(cfg, w, actions);
    if key !in after.works {
      OnlyDeletionRemoves(cfg, before, answer, key);
    } else if Writes(before, after, key) {
      OnlyRoundsWrite(cfg, before, answer, key);
    }
  }

  /** The objects of such a write are the listed ones: no other step makes that intent. */
  lemma IntentIsTheListing(cfg: Config, w: World, answer: Answer)
    ensures var k := RunStep(cfg, w, answer).worker;
      k.Provision? && (k.stage.CheckInstance? || k.stage.WriteInstance?) && k.stage.intent.mirrorOk ==>
        w.worker.Provision? && IntentFrom(w.worker.stage, k.stage, answer)
  {
    match w.worker
    case ReadClass(c, cell) =>
      if !answer.fails && w.class_.Some? {
        EvaluatedHolds(cfg, c, cell, w.class_.value, answer.addresses);
      }
    case Provision(r, stage) => StageIntent(cfg, w.works, w.secrets, r, stage, answer);
    case Cleanup(c, task) => if !task.RemoveFinalizer? { CleanupGoesOn(cfg, w, c, task, answer); }
    case _ =>
  }

  /** The intent was there already, or it is the listing just answered. */
  predicate IntentFrom(before: Stage, after: Stage, answer: Answer)
    requires after.CheckInstance? || after.WriteInstance?
  {
    if before.CheckInstance? then after.intent == before.intent
    else before.CollectMirror? && answer.mirror == Mirrored(after.intent.mirrored)
  }

  lemma StageIntent(cfg: Config, works: map<Key, Work>, secrets: map<string, string>, r: Round, stage: Stage, answer: Answer)
    ensures var k := ProvisionStep(cfg, works, secrets, r, stage, answer).worker;
      k.Provision? && (k.stage.CheckInstance? || k.stage.WriteInstance?) && k.stage.intent.mirrorOk ==> IntentFrom(stage, k.stage, answer)
  {
  }

  // ---- phase Ready -------------------------------------------------------------------------------

  predicate ReadyOk(s: Status) {
    (s.phase == Ready ==> s.child == FULL_CHILD) && (s.child == FULL_CHILD ==> s.observed)
  }

  predicate ReadyMeansUp(w: World) {
    (w.vc.Some? ==> ReadyOk(w.vc.value.status)) && (!w.worker.Idle? ==> ReadyOk(w.worker.Copy().status))
  }

  /** A round of a Ready cluster is told that not everything is up, without an error. */
  predicate PartialProbe(w: World, answer: Answer) {
    && w.worker.Provision? && w.worker.stage.ObserveChild? && AppliedInstance(w.worker.stage.gate)
    && w.worker.round.cluster.status.phase == Ready && answer.probe.Probed? && answer.probe.child != FULL_CHILD
  }

  /** The observer never does that. The resource observer does not: it reports all three flags or fails. */
  predicate AllOrError(w: World, a: Action) {
    a.Step? ==> !PartialProbe(w, a.answer)
  }

  lemma ProbeKeepsReadyIff(r: Round, gate: Gate, probe: Probe)
    requires ReadyOk(r.cluster.status) && (probe.ProbeFailed? || probe.Probed?)
    ensures ReadyOk(AfterProbe(r, gate, probe).Copy().status) <==> !(r.cluster.status.phase == Ready && probe.Probed? && probe.child != FULL_CHILD)
  {
  }

  lemma ObserveKeepsReadyIff(cfg: Config, w: World, answer: Answer)
    requires w.worker.Provision? && w.worker.stage.ObserveChild? && ReadyOk(w.worker.round.cluster.status)
    ensures var k := ProvisionStep(cfg, w.works, w.secrets, w.worker.round, w.worker.stage, answer).worker;
      (!k.Idle? ==> ReadyOk(k.Copy().status)) <==> !PartialProbe(w, answer)
  {
    if AppliedInstance(w.worker.stage.gate) && (answer.probe.ProbeFailed? || answer.probe.Probed?) {
      ProbeKeepsReadyIff(w.worker.round, w.worker.stage.gate, answer.probe);
    }
  }

  lemma StagesKeepReady(cfg: Config, works: map<Key, Work>, secrets: map<string, string>, r: Round, stage: Stage, answer: Answer)
    requires ReadyOk(r.cluster.status) && !stage.ObserveChild?
    ensures var k := ProvisionStep(cfg, works, secrets, r, stage, answer).worker; !k.Idle? ==> ReadyOk(k.Copy().status)
  {
  }

  lemma CleanupKeepsReady(cfg: Config, w: World, c: Cluster, task: Task, answer: Answer)
    requires ReadyOk(c.status) && !task.RemoveFinalizer?
    ensures var k := CleanupStep(cfg, w, c, task, answer).worker; !k.Idle? ==> ReadyOk(k.Copy().status)
  {
  }

  /** The exact condition: a step keeps the meaning of Ready if and only if it is not a partial probe of a Ready cluster. */
  lemma ReadyKeptIff(cfg: Config, w: World, answer: Answer)
    requires ReadyMeansUp(w)
    ensures ReadyMeansUp(RunStep(cfg, w, answer)) <==> !PartialProbe(w, answer)
  {
    match w.worker
    case ReadClass(c, cell) =>
      if !answer.fails && w.class_.Some? {
        EvaluatedStatus(cfg, c, cell, w.class_.value, answer.addresses);
      }
    case Provision(r, stage) =>
      if stage.ObserveChild? {
        ObserveKeepsReadyIff(cfg, w, answer);
      } else {
        StagesKeepReady(cfg, w.works, w.secrets, r, stage, answer);
      }
    case Cleanup(c, task) => if !task.RemoveFinalizer? { CleanupKeepsReady(cfg, w, c, task, answer); }
    case _ =>
  }

  lemma OthersKeepReady(cfg: Config, w: World, a: Action)
    requires !a.Step? && ReadyMeansUp(w)
    ensures ReadyMeansUp(Apply(cfg, w, a))
  {
  }

  /** In every saved status of every such run, phase Ready means that all three child flags are true and that the
      observation that set them succeeded. */
  lemma {:induction false} ReadyIsObserved(cfg: Config, w: World, actions: seq<Action>)
    requires Init(w) && Allowed(cfg, w, actions, AllOrError)
    ensures ReadyMeansUp(Run(cfg, w, actions))
    decreases |actions|
  {
    if actions != [] {
      var init, last := actions[..|actions| - 1], actions[|actions| - 1];
      AllowedPrefix(cfg, w, actions, AllOrError);
      ReadyIsObserved(cfg, w, init);
      if last.Step? {
        ReadyKeptIff(cfg, Run(cfg, w, init), last.answer);
      } else {
        OthersKeepReady(cfg, Run(cfg, w, init), last);
      }
    }
  }

  /** An observer with partial results breaks it: an unusable endpoint ends the round before the phase is set again. */
  lemma PartialProbeStaysReady(cfg: Config, w: World, child: Child, client: bool)
    requires w.vc.Some? && w.worker.Provision? && w.worker.stage.ObserveChild? && AppliedInstance(w.worker.stage.gate)
    requires w.worker.round.cluster.status.phase == Ready && child != FULL_CHILD
    ensures var probed := RunStep(cfg, w, SMOOTH.(probe := Probed(child, BadEndpoint, client)));
      var saved := RunStep(cfg, probed, SMOOTH);
      saved.vc.Some? && saved.vc.value.status.phase == Ready && saved.vc.value.status.child == child
  {
  }
}
