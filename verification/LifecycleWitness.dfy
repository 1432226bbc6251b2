/** Runs of the controller from the empty world, for every name and every fingerprint: rounds that write are reachable, and so
    is what each assumption on the Cell and on third parties rules out. */
module LifecycleWitness {
  import opened Api
  import opened Resolution
  import opened Lifecycle
  import opened LifecycleInvariants
  import opened LifecycleOrphans
  import opened LifecycleGates
  import AcceptedCell
  import CellController
  import Plan

  const EMPTY := World(None, {}, None, None, map[], map[], Idle)

  /** A Ready Cell and a class that the controller resolves and accepts. */
  predicate Accepts(cfg: Config, cell: Cell, class_: Class) {
    && cell.Status().phase == CellReady && cell.finalizer && ValidCell(cell.spec)
    && cfg.resolvable(cell.spec, class_.spec) && cfg.evaluate(cell.spec, cell.Status(), class_.spec) == Plan.Accepted
  }

  // ---- getting there -----------------------------------------------------------------------------

  lemma SaveStores(cell: Cell, h: CellController.CellHistory, profile: MachineProfile, round: CellController.Round)
    requires cell.finalizer && CellController.HistoryStep(cell.history, h, profile, round, false)
    ensures CellAfter(Some(cell), None, SaveCell(h, profile, round, false)) == Some(cell.(history := h, dropping := false))
  {
  }

  lemma CellStep(cfg: Config, w: World, prefix: seq<Action>, a: CellAction, x: Option<Cell>, y: Option<Cell>)
    requires Run(cfg, w, prefix) == w.(cell := x) && CellAfter(x, w.vc, a) == y
    ensures Run(cfg, w, prefix + [OnCell(a)]) == w.(cell := y)
  {
    RunExtends(cfg, w, prefix, OnCell(a));
  }

  /** A Cell is created, gets its finalizer and a first round that makes it Ready. */
  lemma CellIsReady(cfg: Config, spec: CellSpec, h: CellController.CellHistory, profile: MachineProfile, round: CellController.Round)
    returns (actions: seq<Action>)
    requires ValidCell(spec)
    requires CellController.HistoryStep(CellController.CellHistory(CellController.INITIAL_STATUS, None), h, profile, round, false)
    ensures Run(cfg, EMPTY, actions) == EMPTY.(cell := Some(Cell("c", spec, h, true, false, false)))
  {
    var created := Cell("c", spec, CellController.CellHistory(CellController.INITIAL_STATUS, None), false, false, false);
    var finalized := created.(finalizer := true);
    SaveStores(finalized, h, profile, round);
    var create, finalize, save := CreateCell("c", spec), FinalizeCell, SaveCell(h, profile, round, false);
    CellStep(cfg, EMPTY, [], create, None, Some(created));
    CellStep(cfg, EMPTY, [] + [OnCell(create)], finalize, Some(created), Some(finalized));
    CellStep(cfg, EMPTY, [] + [OnCell(create)] + [OnCell(finalize)], save, Some(finalized), Some(finalized.(history := h)));
    actions := [] + [OnCell(create)] + [OnCell(finalize)] + [OnCell(save)];
  }

  const CREATED := Cluster("u", 0, false, false, Lifecycle.INITIAL_STATUS)
  const ADMITTED := Cluster("u", 1, false, true, Lifecycle.INITIAL_STATUS)

  /** A class and a cluster are created, and a first round saves the finalizer. */
  lemma ClusterIsAdmitted(cfg: Config, cell: Cell, class_: ClassSpec) returns (actions: seq<Action>)
    ensures var w := EMPTY.(cell := Some(cell));
      Run(cfg, w, actions) == w.(class_ := Some(Class("k", class_)), vc := Some(ADMITTED), issued := {"u"}, worker := ReadCell(ADMITTED))
  {
    var w := EMPTY.(cell := Some(cell));
    var makeClass, create, step := OnClass(CreateClass("k", class_)), User(CreateCluster("u")), Step(SMOOTH);
    RunExtends(cfg, w, [], makeClass);
    var w1 := w.(class_ := Some(Class("k", class_)));
    RunExtends(cfg, w, [] + [makeClass], create);
    assert {} + {"u"} == {"u"};
    var w2 := w1.(vc := Some(CREATED), issued := {"u"});
    assert Run(cfg, w, [] + [makeClass] + [create]) == w2;
    RunExtends(cfg, w, [] + [makeClass] + [create], step);
    RunExtends(cfg, w, [] + [makeClass] + [create] + [step], step);
    actions := [] + [makeClass] + [create] + [step] + [step];
  }

  /** The round that follows, up to the write of the Foundation Work; an existing one is patched. */
  lemma RoundReachesWrite(cfg: Config, w: World, c: Cluster, cell: Cell, class_: Class) returns (actions: seq<Action>, r: Round)
    requires w.worker == ReadCell(c) && c.status.resolved == NO_SNAPSHOT
    requires w.cell == Some(cell) && w.class_ == Some(class_) && Accepts(cfg, cell, class_)
    requires var key := FoundationKey(cfg, cell.spec.managedCluster, c.uid); key in w.works ==> MayPatch(cfg, w.works[key], c.uid)
    ensures r.cell == cell && r.cluster.uid == c.uid
    ensures Run(cfg, w, actions) == w.(worker := Provision(r, WriteFoundation(FoundationKey(cfg, cell.spec.managedCluster, c.uid) in w.works)))
  {
    var read, evaluate := Step(SMOOTH), Step(SMOOTH.(addresses := ["a"]));
    RunExtends(cfg, w, [], read);
    assert Run(cfg, w, [] + [read]) == w.(worker := ReadClass(c, cell));
    RunExtends(cfg, w, [] + [read], evaluate);
    var k := Evaluated(cfg, c, cell, class_, ["a"]);
    assert k.Provision? && k.stage.CheckFoundation? && k.round.cell == cell && k.round.cluster.uid == c.uid;
    assert Run(cfg, w, [] + [read] + [evaluate]) == w.(worker := k);
    r := k.round;
    RunExtends(cfg, w, [] + [read] + [evaluate], read);
    actions := [] + [read] + [evaluate] + [read];
  }

  /** The world in which the accepted Cell is Ready. */
  const CELL := Cell("c", AcceptedCell.SPEC, AcceptedCell.HISTORY, true, false, false)

  lemma CellIsAccepted(codec: Codec, namespace: string, name: string, cellName: string)
    ensures Usable(ConfigFor(codec, namespace, name, cellName))
    ensures Accepts(ConfigFor(codec, namespace, name, cellName), CELL, Class("k", AcceptedCell.CLASS))
  {
    ControllerIsUsable(codec, namespace, name, cellName);
    AcceptedCell.PlanIsAccepted();
    AcceptedCell.ClassResolves();
    ControllerEvaluates(codec, namespace, name, cellName, CELL.spec, CELL.Status(), AcceptedCell.CLASS);
  }

  lemma AcceptedCellIsReady(cfg: Config) returns (actions: seq<Action>)
    ensures Run(cfg, EMPTY, actions) == EMPTY.(cell := Some(CELL))
  {
    AcceptedCell.ReadyIsReachable();
    actions := CellIsReady(cfg, AcceptedCell.SPEC, AcceptedCell.HISTORY, AcceptedCell.PROFILE, AcceptedCell.ROUND);
  }

  /** The first round of a new cluster, about to create the Foundation Work. */
  lemma FirstWrite(cfg: Config, cell: Cell, class_: ClassSpec, ready: seq<Action>) returns (actions: seq<Action>, r: Round)
    requires Run(cfg, EMPTY, ready) == EMPTY.(cell := Some(cell)) && Accepts(cfg, cell, Class("k", class_))
    ensures r.cell == cell && r.cluster.uid == "u"
    ensures Run(cfg, EMPTY, actions) == EMPTY.(cell := Some(cell), class_ := Some(Class("k", class_)), vc := Some(ADMITTED), issued := {"u"},
                                               worker := Provision(r, WriteFoundation(false)))
  {
    var admitted := ClusterIsAdmitted(cfg, cell, class_);
    RunsCompose(cfg, EMPTY, ready, admitted);
    var mid := Run(cfg, EMPTY, ready + admitted);
    var writing;
    writing, r := RoundReachesWrite(cfg, mid, ADMITTED, cell, Class("k", class_));
    RunsCompose(cfg, EMPTY, ready + admitted, writing);
    actions := ready + admitted + writing;
  }

  // ---- without the assumption on the Cell's managed cluster --------------------------------------

  lemma OrphanFrom(cfg: Config, cell: Cell, class_: ClassSpec, ready: seq<Action>) returns (actions: seq<Action>)
    requires Usable(cfg) && Run(cfg, EMPTY, ready) == EMPTY.(cell := Some(cell)) && Accepts(cfg, cell, Class("k", class_))
    ensures Run(cfg, EMPTY, actions).vc.None? && !WorksOwned(Run(cfg, EMPTY, actions))
  {
    var written, r := FirstWrite(cfg, cell, class_, ready);
    AlwaysSound(cfg, EMPTY, written);
    var elsewhere := cell.spec.managedCluster + "2";
    assert |elsewhere| != |cell.spec.managedCluster|;
    var orphaned := MovedCellLeavesOrphan(cfg, Run(cfg, EMPTY, written), cell.spec.(managedCluster := elsewhere));
    RunsCompose(cfg, EMPTY, written, orphaned);
    actions := written + orphaned;
  }

  /** The controller orphans Works: a run from the empty world ends with the cluster gone and its Foundation Work left. */
  lemma OrphansAreReachable(codec: Codec, namespace: string, name: string, cellName: string) returns (actions: seq<Action>)
    ensures var end := Run(ConfigFor(codec, namespace, name, cellName), EMPTY, actions); Init(EMPTY) && end.vc.None? && !WorksOwned(end)
  {
    var cfg := ConfigFor(codec, namespace, name, cellName);
    CellIsAccepted(codec, namespace, name, cellName);
    var ready := AcceptedCellIsReady(cfg);
    actions := OrphanFrom(cfg, CELL, AcceptedCell.CLASS, ready);
  }

  // ---- without calm ------------------------------------------------------------------------------

  /** A foreign Work takes the place of a checked one. */
  lemma Swap(cfg: Config, w: World, key: Key, foreign: Work) returns (actions: seq<Action>)
    requires foreign.Uid() !in w.issued
    ensures Run(cfg, w, actions) == w.(works := (w.works - {key})[key := foreign])
  {
    var remove, place := OnObject(RemoveWork(key)), OnObject(PlaceWork(key, foreign));
    RunExtends(cfg, w, [], remove);
    RunExtends(cfg, w, [] + [remove], place);
    actions := [] + [remove] + [place];
  }

  lemma RestartReads(cfg: Config, w: World)
    requires w.worker.Idle? && w.vc == Some(ADMITTED)
    ensures Run(cfg, w, [] + [Step(SMOOTH)]) == w.(worker := ReadCell(ADMITTED))
  {
    RunExtends(cfg, w, [], Step(SMOOTH));
  }

  /** From the first write: it crashes after the write, and the next round is about to patch the same Work. */
  lemma SecondRoundPatches(cfg: Config, w: World, r: Round, cell: Cell, class_: Class) returns (actions: seq<Action>, r': Round)
    requires Attached(w) && w.worker == Provision(r, WriteFoundation(false)) && w.vc == Some(ADMITTED) && w.works == map[]
    requires w.cell == Some(cell) && w.class_ == Some(class_) && Accepts(cfg, cell, class_) && r.cell == cell
    ensures r'.cell == cell && r'.cluster.uid == "u"
    ensures var after := Run(cfg, w, actions);
      after == w.(works := after.works, worker := Provision(r', WriteFoundation(true)))
  {
    var crashed, work := WriteThenCrash(cfg, w);
    var w1 := Run(cfg, w, crashed);
    RestartReads(cfg, w1);
    RunsCompose(cfg, w, crashed, [] + [Step(SMOOTH)]);
    var w2 := Run(cfg, w, crashed + ([] + [Step(SMOOTH)]));
    var patching;
    patching, r' := RoundReachesWrite(cfg, w2, ADMITTED, cell, class_);
    RunsCompose(cfg, w, crashed + ([] + [Step(SMOOTH)]), patching);
    actions := crashed + ([] + [Step(SMOOTH)]) + patching;
  }

  /** About to patch a Work that has just been replaced. */
  lemma SwapIsHarmful(cfg: Config, w: World, r: Round, foreign: Work)
    requires w.worker == Provision(r, WriteFoundation(true)) && r.cluster.uid == "u" && foreign.Uid() != "u"
    requires var key := FoundationKey(cfg, r.cell.spec.managedCluster, "u"); key in w.works && w.works[key] == foreign
    ensures foreign in w.works.Values && !ForeignUntouched(w, RunStep(cfg, w, SMOOTH), "u")
  {
    ForeignUntouchedIff(cfg, w, SMOOTH);
  }

  lemma SwapFrom(cfg: Config, cell: Cell, class_: ClassSpec, ready: seq<Action>, foreign: Work) returns (actions: seq<Action>)
    requires Usable(cfg) && Run(cfg, EMPTY, ready) == EMPTY.(cell := Some(cell)) && Accepts(cfg, cell, Class("k", class_))
    requires foreign.Uid() != "u"
    ensures var before := Run(cfg, EMPTY, actions);
      !before.worker.Idle? && foreign in before.works.Values && !ForeignUntouched(before, RunStep(cfg, before, SMOOTH), before.worker.Copy().uid)
  {
    var written, r := FirstWrite(cfg, cell, class_, ready);
    AlwaysSound(cfg, EMPTY, written);
    var patching, r' := SecondRoundPatches(cfg, Run(cfg, EMPTY, written), r, cell, Class("k", class_));
    RunsCompose(cfg, EMPTY, written, patching);
    var swapped := Swap(cfg, Run(cfg, EMPTY, written + patching), FoundationKey(cfg, cell.spec.managedCluster, "u"), foreign);
    RunsCompose(cfg, EMPTY, written + patching, swapped);
    actions := written + patching + swapped;
    SwapIsHarmful(cfg, Run(cfg, EMPTY, actions), r', foreign);
  }

  /** Without calm the controller overwrites a foreign Work: the labels are checked before the patch, not with it. */
  lemma SwappedWorkIsPatched(codec: Codec, namespace: string, name: string, cellName: string, foreign: Work) returns (actions: seq<Action>)
    requires foreign.Uid() != "u"
    ensures var before := Run(ConfigFor(codec, namespace, name, cellName), EMPTY, actions);
      && !before.worker.Idle? && foreign in before.works.Values
      && !ForeignUntouched(before, RunStep(ConfigFor(codec, namespace, name, cellName), before, SMOOTH), before.worker.Copy().uid)
  {
    var cfg := ConfigFor(codec, namespace, name, cellName);
    CellIsAccepted(codec, namespace, name, cellName);
    var ready := AcceptedCellIsReady(cfg);
    actions := SwapFrom(cfg, CELL, AcceptedCell.CLASS, ready, foreign);
  }

  // ---- a cluster created between the Cell reconciler's list and its update -----------------------

  /** The Ready Cell is deleted, and its reconciler has listed no cluster. */
  lemma CellIsDropping(cfg: Config, cell: Cell, ready: seq<Action>) returns (actions: seq<Action>)
    requires Run(cfg, EMPTY, ready) == EMPTY.(cell := Some(cell)) && cell.finalizer
    ensures Run(cfg, EMPTY, actions) == EMPTY.(cell := Some(cell.(deleting := true, dropping := true)))
  {
    CellStep(cfg, EMPTY, ready, DeleteCell, Some(cell), Some(cell.(deleting := true)));
    CellStep(cfg, EMPTY, ready + [OnCell(DeleteCell)], ListClusters, Some(cell.(deleting := true)), Some(cell.(deleting := true, dropping := true)));
    actions := ready + [OnCell(DeleteCell)] + [OnCell(ListClusters)];
  }

  /** A round without host addresses ends by saving the snapshot. */
  lemma RoundSavesSnapshot(cfg: Config, w: World, cell: Cell, class_: Class) returns (actions: seq<Action>)
    requires Usable(cfg) && w.worker == ReadCell(ADMITTED) && w.vc == Some(ADMITTED)
    requires w.cell == Some(cell) && w.class_ == Some(class_) && Accepts(cfg, cell, class_)
    ensures var after := Run(cfg, w, actions);
      after == w.(vc := after.vc, worker := Idle) && Referenced(after.vc) && after.vc.value.status.resolved == ResolvedFor(cfg, "u", cell, class_)
  {
    var step := Step(SMOOTH);
    RunExtends(cfg, w, [], step);
    assert Run(cfg, w, [] + [step]) == w.(worker := ReadClass(ADMITTED, cell));
    RunExtends(cfg, w, [] + [step], step);
    var k := Evaluated(cfg, ADMITTED, cell, class_, []);
    assert k.SaveStatus? && k.cluster.status.resolved == ResolvedFor(cfg, "u", cell, class_);
    assert Run(cfg, w, [] + [step] + [step]) == w.(worker := k);
    RunExtends(cfg, w, [] + [step] + [step], step);
    actions := [] + [step] + [step] + [step];
  }

  lemma DropFrom(cfg: Config, cell: Cell, class_: ClassSpec, ready: seq<Action>) returns (actions: seq<Action>)
    requires Usable(cfg) && Run(cfg, EMPTY, ready) == EMPTY.(cell := Some(cell)) && Accepts(cfg, cell, Class("k", class_))
    ensures var end := Run(cfg, EMPTY, actions); Referenced(end.vc) && end.vc.value.status.resolved != NO_SNAPSHOT && end.cell.None?
  {
    var listed := CellIsDropping(cfg, cell, ready);
    var dropping := cell.(deleting := true, dropping := true);
    var admitted := ClusterIsAdmitted(cfg, dropping, class_);
    RunsCompose(cfg, EMPTY, listed, admitted);
    var saved := RoundSavesSnapshot(cfg, Run(cfg, EMPTY, listed + admitted), dropping, Class("k", class_));
    RunsCompose(cfg, EMPTY, listed + admitted, saved);
    RunExtends(cfg, EMPTY, listed + admitted + saved, OnCell(DropCell));
    actions := listed + admitted + saved + [OnCell(DropCell)];
  }

  /** Without the assumption that the Cell stays: a run from the empty world ends with a live cluster that has a snapshot and no
      Cell. */
  lemma CellsAreDroppedInUse(codec: Codec, namespace: string, name: string, cellName: string) returns (actions: seq<Action>)
    ensures var end := Run(ConfigFor(codec, namespace, name, cellName), EMPTY, actions);
      Referenced(end.vc) && end.vc.value.status.resolved != NO_SNAPSHOT && end.cell.None?
  {
    var cfg := ConfigFor(codec, namespace, name, cellName);
    CellIsAccepted(codec, namespace, name, cellName);
    var ready := AcceptedCellIsReady(cfg);
    actions := DropFrom(cfg, CELL, AcceptedCell.CLASS, ready);
  }
}
