/** Runs of the controller from the empty world that get where they should: a cluster becomes Ready, and a provisioned cluster
    that is deleted goes with everything it owned. */
module LifecycleReady {
  import opened Api
  import opened Resolution
  import opened Lifecycle
  import opened LifecycleInvariants
  import opened LifecycleOrphans
  import opened LifecycleGates
  import opened LifecycleWitness
  import opened LifecycleTwoHomes
  import opened LifecycleProgress
  import opened LifecycleDeletion
  import AcceptedCell

  /** Every call succeeds, the child is up with a usable endpoint and has no Ingresses, and deleted Works go at once. */
  const GOOD := Answer(false, ["a"], Probed(FULL_CHILD, GoodEndpoint, true), true, Mirrored([]), false)

  function Times(n: nat): (r: seq<Answer>)
    ensures |r| == n && forall i :: 0 <= i < n ==> r[i] == GOOD
  {
    seq(n, i => GOOD)
  }

  /** The agent reports the Instance Work applied. */
  lemma InstanceApplied(cfg: Config, w: World, home: string) returns (actions: seq<Action>)
    requires Usable(cfg) && w.works.Keys == {FoundationKey(cfg, home, "u"), InstanceKey(cfg, home, "u")}
    requires MayPatch(cfg, w.works[FoundationKey(cfg, home, "u")], "u") && MayPatch(cfg, w.works[InstanceKey(cfg, home, "u")], "u")
    requires w.works[FoundationKey(cfg, home, "u")].applied && !w.works[FoundationKey(cfg, home, "u")].degraded
    ensures var w' := Run(cfg, w, actions); w' == w.(works := w'.works) && Provisioned(cfg, w', home, "u")
  {
    var report := OnObject(ReportWork(InstanceKey(cfg, home, "u"), true, false, false));
    RunExtends(cfg, w, [], report);
    actions := [] + [report];
    assert cfg.names("u").foundationWork != cfg.names("u").instanceWork;
  }

  lemma ReadyFrom(cfg: Config, cell: Cell, class_: ClassSpec, ready: seq<Action>) returns (actions: seq<Action>)
    requires Usable(cfg) && Run(cfg, EMPTY, ready) == EMPTY.(cell := Some(cell)) && Accepts(cfg, cell, Class("k", class_))
    ensures Settled(Run(cfg, EMPTY, actions), "u", FULL_CHILD)
  {
    var both, w := BothWorks(cfg, cell, class_, ready);
    var applied := InstanceApplied(cfg, w, cell.spec.managedCluster);
    RunsCompose(cfg, EMPTY, both, applied);
    var provisioned := Run(cfg, w, applied);
    var n := RoundSettles(cfg, provisioned, Times(14));
    AfterIsRun(cfg, provisioned, Times(14), n);
    var round := StepsOf(Times(14)[..n]);
    RunsCompose(cfg, EMPTY, both + applied, round);
    actions := both + applied + round;
  }

  /** The controller reaches phase Ready from the empty world, for every name and every fingerprint. */
  lemma ReadyIsReached(codec: Codec, namespace: string, name: string, cellName: string) returns (actions: seq<Action>)
    ensures var end := Run(ConfigFor(codec, namespace, name, cellName), EMPTY, actions);
      end.vc.Some? && end.vc.value.status.phase == Ready && end.vc.value.status.child == Child(true, true, true)
  {
    var cfg := ConfigFor(codec, namespace, name, cellName);
    CellIsAccepted(codec, namespace, name, cellName);
    var ready := AcceptedCellIsReady(cfg);
    actions := ReadyFrom(cfg, CELL, AcceptedCell.CLASS, ready);
  }

  lemma DeletedIsDeletable(cfg: Config, w: World, cell: Cell)
    requires Usable(cfg) && w.worker.Idle? && w.vc == Some(DELETED) && w.cell == Some(cell) && cell.spec.managedCluster != "" && w.secrets == map[]
    requires var home := cell.spec.managedCluster;
      && w.works.Keys == {FoundationKey(cfg, home, "u"), InstanceKey(cfg, home, "u")}
      && w.works[FoundationKey(cfg, home, "u")].Uid() == "u" && w.works[InstanceKey(cfg, home, "u")].Uid() == "u"
    ensures Deletable(cfg, w) && Ended(cfg, w) == w.(vc := None, works := map[]) && Remaining(cfg, w) <= 2
  {
    assert cfg.names("u").instanceWork != "" && cfg.names("u").foundationWork != "";
    assert w.works - {InstanceKey(cfg, Home(w), "u"), FoundationKey(cfg, Home(w), "u")} == map[];
    assert w.secrets - {SecretName(cfg, "u")} == map[];
  }

  lemma GoneFrom(cfg: Config, cell: Cell, class_: ClassSpec, ready: seq<Action>) returns (actions: seq<Action>)
    requires Usable(cfg) && Run(cfg, EMPTY, ready) == EMPTY.(cell := Some(cell)) && Accepts(cfg, cell, Class("k", class_))
    ensures var end := Run(cfg, EMPTY, actions); end.vc.None? && end.issued == {"u"} && end.works == map[] && end.secrets == map[]
  {
    var both, w := BothWorks(cfg, cell, class_, ready);
    DeletionMarks(cfg, w);
    var deleted := w.(vc := Some(DELETED));
    Append(cfg, EMPTY, both, User(DeleteCluster), w, deleted);
    DeletedIsDeletable(cfg, deleted, cell);
    var n := DeletionEnds(cfg, deleted, Times(24));
    AfterIsRun(cfg, deleted, Times(24), n);
    var rounds := StepsOf(Times(24)[..n]);
    RunsCompose(cfg, EMPTY, both + [User(DeleteCluster)], rounds);
    actions := both + [User(DeleteCluster)] + rounds;
  }

  /** And a deletion of the controller ends with nothing left. */
  lemma NothingIsLeft(codec: Codec, namespace: string, name: string, cellName: string) returns (actions: seq<Action>)
    ensures var end := Run(ConfigFor(codec, namespace, name, cellName), EMPTY, actions);
      end.vc.None? && end.issued == {"u"} && end.works == map[] && end.secrets == map[]
  {
    var cfg := ConfigFor(codec, namespace, name, cellName);
    CellIsAccepted(codec, namespace, name, cellName);
    var ready := AcceptedCellIsReady(cfg);
    actions := GoneFrom(cfg, CELL, AcceptedCell.CLASS, ready);
  }
}
