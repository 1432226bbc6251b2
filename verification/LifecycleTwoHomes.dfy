/** What the deletion order does not promise: without the assumption on the Cell's managed cluster the Works of one cluster can be
    in two managed clusters, and a Foundation Work is then deleted in one while an Instance Work is left in the other. */
module LifecycleTwoHomes {
  import opened Api
  import opened Resolution
  import opened Lifecycle
  import opened LifecycleInvariants
  import opened LifecycleOrphans
  import opened LifecycleGates
  import opened LifecycleWitness
  import AcceptedCell

  lemma Append(cfg: Config, w0: World, prefix: seq<Action>, a: Action, w: World, w': World)
    requires Run(cfg, w0, prefix) == w && Apply(cfg, w, a) == w'
    ensures Run(cfg, w0, prefix + [a]) == w'
  {
    RunExtends(cfg, w0, prefix, a);
  }

  // ---- both Works, and no snapshot ---------------------------------------------------------------

  /** A stage of a round that only moves the worker on. */
  lemma StageMoves(cfg: Config, w0: World, prefix: seq<Action>, w: World, r: Round, stage: Stage, next: Stage)
    requires Run(cfg, w0, prefix) == w.(worker := Provision(r, stage))
    requires ProvisionStep(cfg, w.works, w.secrets, r, stage, SMOOTH) == Outcome(w.works, w.secrets, Provision(r, next))
    ensures Run(cfg, w0, prefix + [Step(SMOOTH)]) == w.(worker := Provision(r, next))
  {
    RunExtends(cfg, w0, prefix, Step(SMOOTH));
  }

  /** The Foundation Work is written, and the agent reports it applied. */
  lemma FoundationApplied(cfg: Config, w: World, r: Round) returns (actions: seq<Action>, f: Work)
    requires w.worker == Provision(r, WriteFoundation(false)) && w.works == map[] && w.vc.Some? && w.vc.value.uid == r.cluster.uid
    ensures f.Uid() == r.cluster.uid && MayPatch(cfg, f, r.cluster.uid) && f.applied && !f.degraded
    ensures Run(cfg, w, actions) == w.(worker := Provision(r, ReadInstance(f)), works := map[FoundationKey(cfg, r.cell.spec.managedCluster, r.cluster.uid) := f])
  {
    var key := FoundationKey(cfg, r.cell.spec.managedCluster, r.cluster.uid);
    var work := WriteOnce(cfg, w);
    f := work.(applied := true, degraded := false, deleting := false);
    assert map[][key := work] == map[key := work];
    var written := w.(worker := Provision(r, ReadFoundation), works := map[key := work]);
    Append(cfg, w, [], Step(SMOOTH), w, written);
    var report := OnObject(ReportWork(key, true, false, false));
    AgentReports(cfg, written, key, work);
    Append(cfg, w, [] + [Step(SMOOTH)], report, written, written.(works := map[key := f]));
    StageMoves(cfg, w, [] + [Step(SMOOTH)] + [report], written.(works := map[key := f]), r, ReadFoundation, ReadInstance(f));
    actions := [] + [Step(SMOOTH)] + [report] + [Step(SMOOTH)];
  }

  lemma AgentReports(cfg: Config, w: World, key: Key, work: Work)
    requires w.works == map[key := work]
    ensures Apply(cfg, w, OnObject(ReportWork(key, true, false, false)))
      == w.(works := map[key := work.(applied := true, degraded := false, deleting := false)])
  {
    assert map[key := work][key := work.(applied := true, degraded := false, deleting := false)]
      == map[key := work.(applied := true, degraded := false, deleting := false)];
  }

  lemma InstanceWritten(cfg: Config, works: map<Key, Work>, secrets: map<string, string>, r: Round, gate: Gate, intent: Intent) returns (i: Work)
    requires InstanceKey(cfg, r.cell.spec.managedCluster, r.cluster.uid) !in works
    ensures i.Uid() == r.cluster.uid && MayPatch(cfg, i, r.cluster.uid)
    ensures ProvisionStep(cfg, works, secrets, r, WriteInstance(gate, intent, false), SMOOTH)
      == Outcome(works[InstanceKey(cfg, r.cell.spec.managedCluster, r.cluster.uid) := i], secrets, Provision(r, RefreshInstance))
  {
    i := Work(WorkLabels(cfg, r.cluster.uid, r.resolved), InstanceSpec(r.resolved, r.addresses, intent.mirrored), false, false, false);
    WrittenMayBePatched(cfg, r.cluster.uid, r.resolved);
  }

  /** The rest of the round, up to the creation of the Instance Work, and a crash. */
  lemma InstanceCreated(cfg: Config, w: World, r: Round, f: Work) returns (actions: seq<Action>, i: Work)
    requires w.worker == Provision(r, ReadInstance(f)) && InstanceKey(cfg, r.cell.spec.managedCluster, r.cluster.uid) !in w.works
    ensures i.Uid() == r.cluster.uid && MayPatch(cfg, i, r.cluster.uid)
    ensures Run(cfg, w, actions) == w.(worker := Idle, works := w.works[InstanceKey(cfg, r.cell.spec.managedCluster, r.cluster.uid) := i])
  {
    var gate, intent, step := Gate(f, None), Intent([], false, false), Step(SMOOTH);
    StageMoves(cfg, w, [], w, r, ReadInstance(f), ObserveChild(gate));
    StageMoves(cfg, w, [] + [step], w, r, ObserveChild(gate), CheckInstance(gate, intent));
    StageMoves(cfg, w, [] + [step] + [step], w, r, CheckInstance(gate, intent), WriteInstance(gate, intent, false));
    i := InstanceWritten(cfg, w.works, w.secrets, r, gate, intent);
    RunExtends(cfg, w, [] + [step] + [step] + [step], step);
    RunExtends(cfg, w, [] + [step] + [step] + [step] + [step], Crash);
    actions := [] + [step] + [step] + [step] + [step] + [Crash];
  }

  // ---- a second home -----------------------------------------------------------------------------

  const DELETED := ADMITTED.(deleting := true, version := 2)

  lemma EditMoves(cell: Cell, home: string)
    requires ValidCell(cell.spec) && home != ""
    ensures CellAfter(Some(cell), Some(DELETED), EditCell(cell.spec.(managedCluster := home))) == Some(Moved(cell, home))
  {
  }

  lemma DeletionMarks(cfg: Config, w: World)
    requires w.vc == Some(ADMITTED)
    ensures Apply(cfg, w, User(DeleteCluster)) == w.(vc := Some(DELETED))
  {
  }

  lemma DeletedUnderRound(cfg: Config, w: World) returns (actions: seq<Action>)
    requires w.worker.Idle? && w.vc == Some(ADMITTED)
    ensures Run(cfg, w, actions) == w.(worker := ReadCell(ADMITTED), vc := Some(DELETED))
  {
    RestartReads(cfg, w);
    var w1 := w.(worker := ReadCell(ADMITTED));
    DeletionMarks(cfg, w1);
    Append(cfg, w, [] + [Step(SMOOTH)], User(DeleteCluster), w1, w1.(vc := Some(DELETED)));
    actions := [] + [Step(SMOOTH)] + [User(DeleteCluster)];
  }

  /** A round starts, the cluster is deleted, the Cell is moved, and only then the round reads it. */
  lemma CellMovesUnderRound(cfg: Config, w: World, cell: Cell, home: string) returns (actions: seq<Action>)
    requires w.worker.Idle? && w.vc == Some(ADMITTED) && w.cell == Some(cell) && ValidCell(cell.spec) && home != ""
    ensures Run(cfg, w, actions) == w.(worker := ReadCell(ADMITTED), vc := Some(DELETED), cell := Some(Moved(cell, home)))
  {
    var edit := EditCell(cell.spec.(managedCluster := home));
    var deleted := DeletedUnderRound(cfg, w);
    var w1 := Run(cfg, w, deleted);
    EditMoves(cell, home);
    CellStep(cfg, w1, [], edit, Some(cell), Some(Moved(cell, home)));
    RunsCompose(cfg, w, deleted, [] + [OnCell(edit)]);
    actions := deleted + ([] + [OnCell(edit)]);
  }

  function Moved(cell: Cell, home: string): Cell {
    cell.(spec := cell.spec.(managedCluster := home), dropping := false)
  }

  /** The deletion round looks in the second home and is about to delete the Foundation Work there. */
  lemma CleanupReachesFoundation(cfg: Config, w: World, cell: Cell) returns (actions: seq<Action>)
    requires Usable(cfg) && w.worker.Idle? && w.vc == Some(DELETED) && w.cell == Some(cell) && cell.spec.managedCluster != ""
    requires w.secrets == map[] && InstanceKey(cfg, cell.spec.managedCluster, "u") !in w.works
    requires var key := FoundationKey(cfg, cell.spec.managedCluster, "u"); key in w.works && w.works[key].Uid() == "u"
    ensures Run(cfg, w, actions) == w.(worker := Cleanup(DELETED, DeleteWork(cell.spec.managedCluster, FoundationKey(cfg, cell.spec.managedCluster, "u"))))
  {
    var home, step := cell.spec.managedCluster, Step(SMOOTH);
    var tasks := [CheckSecret, Locate, FindInstance(home), FindFoundation(home, None), DeleteWork(home, FoundationKey(cfg, home, "u"))];
    Append(cfg, w, [], step, w, w.(worker := Cleanup(DELETED, CheckSecret)));
    actions := [] + [step];
    for i := 0 to 4
      invariant Run(cfg, w, actions) == w.(worker := Cleanup(DELETED, tasks[i]))
    {
      assert CleanupStep(cfg, Run(cfg, w, actions), DELETED, tasks[i], SMOOTH) == Outcome(w.works, w.secrets, Cleanup(DELETED, tasks[i + 1]));
      Append(cfg, w, actions, step, Run(cfg, w, actions), w.(worker := Cleanup(DELETED, tasks[i + 1])));
      actions := actions + [step];
    }
  }

  // ---- together ----------------------------------------------------------------------------------

  /** The step that comes next deletes a Foundation Work while an Instance Work of the cluster exists. */
  predicate FoundationGoesFirst(cfg: Config, w: World, key: Key, other: Key) {
    && w.vc.Some? && Deletes(w, RunStep(cfg, w, SMOOTH), key) && key.1 == cfg.names(w.vc.value.uid).foundationWork
    && other in w.works && other.1 == cfg.names(w.vc.value.uid).instanceWork && w.works[other].Uid() == w.vc.value.uid
  }

  lemma BothWorks(cfg: Config, cell: Cell, class_: ClassSpec, ready: seq<Action>) returns (actions: seq<Action>, w: World)
    requires Usable(cfg) && Run(cfg, EMPTY, ready) == EMPTY.(cell := Some(cell)) && Accepts(cfg, cell, Class("k", class_))
    ensures Run(cfg, EMPTY, actions) == w
    ensures w == EMPTY.(cell := Some(cell), class_ := Some(Class("k", class_)), vc := Some(ADMITTED), issued := {"u"}, works := w.works)
    ensures var home := cell.spec.managedCluster;
      && w.works.Keys == {FoundationKey(cfg, home, "u"), InstanceKey(cfg, home, "u")} && w.works[InstanceKey(cfg, home, "u")].Uid() == "u"
      && MayPatch(cfg, w.works[FoundationKey(cfg, home, "u")], "u") && MayPatch(cfg, w.works[InstanceKey(cfg, home, "u")], "u")
      && w.works[FoundationKey(cfg, home, "u")].applied && !w.works[FoundationKey(cfg, home, "u")].degraded
  {
    var written, r := FirstWrite(cfg, cell, class_, ready);
    AlwaysSound(cfg, EMPTY, written);
    var applied, f := FoundationApplied(cfg, Run(cfg, EMPTY, written), r);
    RunsCompose(cfg, EMPTY, written, applied);
    var created, i := InstanceCreated(cfg, Run(cfg, EMPTY, written + applied), r, f);
    RunsCompose(cfg, EMPTY, written + applied, created);
    actions := written + applied + created;
    w := Run(cfg, EMPTY, actions);
  }

  /** The round that reads the moved Cell writes a second Foundation Work and crashes. */
  lemma SecondHome(cfg: Config, w: World, cell: Cell, class_: Class, home: string) returns (actions: seq<Action>, work: Work)
    requires w.worker.Idle? && w.vc == Some(ADMITTED) && w.cell == Some(cell) && w.class_ == Some(class_) && home != ""
    requires ValidCell(cell.spec) && Accepts(cfg, Moved(cell, home), class_) && FoundationKey(cfg, home, "u") !in w.works
    ensures work.Uid() == "u"
    ensures Run(cfg, w, actions) == w.(vc := Some(DELETED), cell := Some(Moved(cell, home)), works := w.works[FoundationKey(cfg, home, "u") := work])
  {
    var moving := CellMovesUnderRound(cfg, w, cell, home);
    var w1 := Run(cfg, w, moving);
    var writing, r := RoundReachesWrite(cfg, w1, ADMITTED, Moved(cell, home), class_);
    RunsCompose(cfg, w, moving, writing);
    var w2 := Run(cfg, w, moving + writing);
    var crashed;
    crashed, work := WriteThenCrash(cfg, w2);
    RunsCompose(cfg, w, moving + writing, crashed);
    actions := moving + writing + crashed;
  }

  lemma DeletionIsHarmful(cfg: Config, w: World, home: string, other: Key)
    requires w.vc == Some(DELETED) && w.worker == Cleanup(DELETED, DeleteWork(home, FoundationKey(cfg, home, "u")))
    requires FoundationKey(cfg, home, "u") in w.works && other in w.works && other.1 == cfg.names("u").instanceWork && w.works[other].Uid() == "u"
    ensures FoundationGoesFirst(cfg, w, FoundationKey(cfg, home, "u"), other)
  {
  }

  lemma TwoHomesFrom(cfg: Config, cell: Cell, class_: ClassSpec, ready: seq<Action>, home: string) returns (actions: seq<Action>, key: Key, other: Key)
    requires Usable(cfg) && Run(cfg, EMPTY, ready) == EMPTY.(cell := Some(cell)) && Accepts(cfg, cell, Class("k", class_))
    requires home != "" && home != cell.spec.managedCluster && Accepts(cfg, Moved(cell, home), Class("k", class_))
    ensures FoundationGoesFirst(cfg, Run(cfg, EMPTY, actions), key, other)
  {
    var both, w := BothWorks(cfg, cell, class_, ready);
    key, other := FoundationKey(cfg, home, "u"), InstanceKey(cfg, cell.spec.managedCluster, "u");
    var second, work := SecondHome(cfg, w, cell, Class("k", class_), home);
    RunsCompose(cfg, EMPTY, both, second);
    var w1 := Run(cfg, EMPTY, both + second);
    var cleaning := CleanupReachesFoundation(cfg, w1, Moved(cell, home));
    RunsCompose(cfg, EMPTY, both + second, cleaning);
    actions := both + second + cleaning;
    DeletionIsHarmful(cfg, Run(cfg, EMPTY, actions), home, other);
  }

  lemma MovedIsAccepted(codec: Codec, namespace: string, name: string, cellName: string, home: string)
    requires home != ""
    ensures Accepts(ConfigFor(codec, namespace, name, cellName), Moved(CELL, home), Class("k", AcceptedCell.CLASS))
  {
    AcceptedCell.AcceptedAnywhere(home);
    AcceptedCell.ClassResolves();
    ControllerEvaluates(codec, namespace, name, cellName, Moved(CELL, home).spec, CELL.Status(), AcceptedCell.CLASS);
  }

  /** A run of the controller from the empty world on which a Foundation Work is deleted before an Instance Work. */
  lemma FoundationMayGoFirst(codec: Codec, namespace: string, name: string, cellName: string) returns (actions: seq<Action>, key: Key, other: Key)
    ensures var cfg := ConfigFor(codec, namespace, name, cellName); FoundationGoesFirst(cfg, Run(cfg, EMPTY, actions), key, other)
  {
    var cfg := ConfigFor(codec, namespace, name, cellName);
    CellIsAccepted(codec, namespace, name, cellName);
    MovedIsAccepted(codec, namespace, name, cellName, "m2");
    var ready := AcceptedCellIsReady(cfg);
    actions, key, other := TwoHomesFrom(cfg, CELL, AcceptedCell.CLASS, ready, "m2");
  }
}
