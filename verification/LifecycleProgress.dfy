/** What rounds achieve when their calls succeed: a probed cluster gets the phase its flags say, every refusal gets its own
    phase, and a deletion takes its Works one after the other and ends (internal/controller/virtualcluster_controller.go:93-325,
    517-573). Stated on stored objects, for every sequence of answers. */
module LifecycleProgress {
  import opened Api
  import opened HostObjects
  import opened Resolution
  import opened Lifecycle
  import opened LifecycleInvariants
  import opened LifecycleOrphans
  import Plan

  // ---- consecutive steps -------------------------------------------------------------------------

  /** The first n steps of the worker, each with its own answer. */
  function After(cfg: Config, w: World, answers: seq<Answer>, n: nat): World
    requires n <= |answers|
    decreases n
  {
    if n == 0 then w else After(cfg, RunStep(cfg, w, answers[0]), answers[1..], n - 1)
  }

  function StepsOf(answers: seq<Answer>): (r: seq<Action>)
    ensures |r| == |answers| && forall i :: 0 <= i < |answers| ==> r[i] == Step(answers[i])
  {
    seq(|answers|, i requires 0 <= i < |answers| => Step(answers[i]))
  }

  lemma RunFirst(cfg: Config, w: World, a: Action, rest: seq<Action>)
    ensures Run(cfg, w, [a] + rest) == Run(cfg, Apply(cfg, w, a), rest)
  {
    RunExtends(cfg, w, [], a);
    assert [] + [a] == [a];
    RunsCompose(cfg, w, [a], rest);
  }

  lemma FirstStep(answers: seq<Answer>, n: nat)
    requires 0 < n <= |answers|
    ensures StepsOf(answers[..n]) == [Step(answers[0])] + StepsOf(answers[1..][..n - 1])
  {
    var all, rest := answers[..n], answers[1..][..n - 1];
    assert forall i :: 0 <= i < n - 1 ==> rest[i] == all[i + 1];
    assert all[0] == answers[0];
  }

  /** They are a run in which nobody else acts. */
  lemma {:induction false} AfterIsRun(cfg: Config, w: World, answers: seq<Answer>, n: nat)
    requires n <= |answers|
    ensures Run(cfg, w, StepsOf(answers[..n])) == After(cfg, w, answers, n)
    decreases n
  {
    if n > 0 {
      AfterIsRun(cfg, RunStep(cfg, w, answers[0]), answers[1..], n - 1);
      RunFirst(cfg, w, Step(answers[0]), StepsOf(answers[1..][..n - 1]));
      FirstStep(answers, n);
    }
  }

  lemma {:induction false} AfterCompose(cfg: Config, w: World, answers: seq<Answer>, m: nat, n: nat)
    requires m + n <= |answers|
    ensures After(cfg, w, answers, m + n) == After(cfg, After(cfg, w, answers, m), answers[m..], n)
    decreases m
  {
    if m > 0 {
      AfterCompose(cfg, RunStep(cfg, w, answers[0]), answers[1..], m - 1, n);
      assert answers[1..][m - 1..] == answers[m..];
    } else {
      assert answers[0..] == answers;
    }
  }

  predicate Succeed(answers: seq<Answer>) {
    forall i :: 0 <= i < |answers| ==> !answers[i].fails
  }

  predicate PodsRead(answers: seq<Answer>) {
    forall i :: 0 <= i < |answers| ==> answers[i].podsRead
  }

  lemma LaterAnswers(answers: seq<Answer>, m: nat)
    requires m <= |answers|
    ensures Succeed(answers) ==> Succeed(answers[m..])
    ensures PodsRead(answers) ==> PodsRead(answers[m..])
  {
  }

  // ---- the end of a round ------------------------------------------------------------------------

  /** The cluster as a saved status leaves it. */
  function Saved(c: Cluster, status: Status): Cluster {
    c.(status := status, version := c.version + 1)
  }

  lemma SaveStores(cfg: Config, w: World, c: Cluster, answer: Answer)
    requires w.worker == SaveStatus(c) && w.vc.Some? && !answer.fails
    ensures RunStep(cfg, w, answer) == w.(vc := Some(Saved(w.vc.value, c.status)), worker := Idle)
  {
  }

  /** What a probed round is about to save: Ready when the API, the node and the storage are up, and Provisioning otherwise. */
  predicate AboutToFinish(w: World, child: Child, status: Status) {
    && w.worker.SaveStatus? && w.worker.cluster.status
      == status.(phase := if child.api && child.node && child.storage then Ready else Provisioning)
  }

  /** The Work at the key is absent or the cluster's own, so a round may write it. */
  predicate MayWrite(cfg: Config, works: map<Key, Work>, key: Key, uid: string) {
    key in works ==> MayPatch(cfg, works[key], uid)
  }

  predicate MayWriteInstance(cfg: Config, works: map<Key, Work>, r: Round) {
    MayWrite(cfg, works, InstanceKey(cfg, r.cell.spec.managedCluster, r.cluster.uid), r.cluster.uid)
  }

  /** The Instance Work is there, with the round's snapshot and addresses and these mirrored objects. */
  predicate HoldsInstance(cfg: Config, w: World, r: Round, mirrored: seq<HostObject>) {
    var key := InstanceKey(cfg, r.cell.spec.managedCluster, r.cluster.uid);
    key in w.works && w.works[key].Uid() == r.cluster.uid && w.works[key].spec == InstanceSpec(r.resolved, r.addresses, mirrored)
  }

  /** The objects to mirror: those of a listing that succeeded through a client of a child whose API is up. */
  function Listed(child: Child, client: bool, mirror: MirrorRead): Option<seq<HostObject>> {
    if child.api && client && mirror.Mirrored? then Some(mirror.objects) else None
  }

  /** What was listed is in the Instance Work; without a listing no Work is touched. */
  predicate Mirrors(cfg: Config, before: World, after: World, listed: Option<seq<HostObject>>)
    requires before.worker.Provision?
  {
    if listed.Some? then HoldsInstance(cfg, after, before.worker.round, listed.value) else after.works == before.works
  }

  lemma InstanceIsWritten(cfg: Config, w: World, answers: seq<Answer>, gate: Gate, intent: Intent) returns (n: nat)
    requires w.worker.Provision? && w.worker.stage == CheckInstance(gate, intent)
    requires MayWriteInstance(cfg, w.works, w.worker.round)
    requires |answers| >= 3 && Succeed(answers)
    ensures n <= 3 && After(cfg, w, answers, n).vc == w.vc && HoldsInstance(cfg, After(cfg, w, answers, n), w.worker.round, intent.mirrored)
    ensures AboutToFinish(After(cfg, w, answers, n), w.worker.round.cluster.status.child, w.worker.round.cluster.status)
  {
    var r := w.worker.round;
    var key := InstanceKey(cfg, r.cell.spec.managedCluster, r.cluster.uid);
    var w1 := RunStep(cfg, w, answers[0]);
    assert w1 == w.(worker := Provision(r, WriteInstance(gate, intent, key in w.works)));
    PutIsOwned(cfg, w1.works, key, r.cluster.uid, r.resolved, InstanceSpec(r.resolved, r.addresses, intent.mirrored), key in w.works);
    var w2 := RunStep(cfg, w1, answers[1]);
    assert w2.vc == w.vc && w2.worker == Provision(r, RefreshInstance) && key in w2.works;
    n := 3;
    Three(cfg, w, answers);
  }

  lemma Three(cfg: Config, w: World, answers: seq<Answer>)
    requires |answers| >= 3
    ensures After(cfg, w, answers, 3) == RunStep(cfg, RunStep(cfg, RunStep(cfg, w, answers[0]), answers[1]), answers[2])
  {
    var w1 := RunStep(cfg, w, answers[0]);
    var w2 := RunStep(cfg, w1, answers[1]);
    assert After(cfg, w1, answers[1..], 2) == After(cfg, w2, answers[1..][1..], 1);
    assert answers[1..][1..][0] == answers[2];
    assert After(cfg, w2, answers[1..][1..], 1) == After(cfg, RunStep(cfg, w2, answers[2]), answers[1..][1..][1..], 0);
  }

  lemma CollectedRoundFinishes(cfg: Config, w: World, answers: seq<Answer>, gate: Gate, client: bool) returns (n: nat)
    requires w.worker.Provision? && w.worker.stage == CollectMirror(gate, client) && gate.instance.Some?
    requires MayWriteInstance(cfg, w.works, w.worker.round)
    requires |answers| >= 4 && Succeed(answers) && answers[0].podsRead
    ensures n <= 4 && After(cfg, w, answers, n).vc == w.vc
    ensures Mirrors(cfg, w, After(cfg, w, answers, n), Listed(w.worker.round.cluster.status.child, client, answers[0].mirror))
    ensures AboutToFinish(After(cfg, w, answers, n), w.worker.round.cluster.status.child, w.worker.round.cluster.status)
  {
    var w1 := RunStep(cfg, w, answers[0]);
    n := 1;
    if w1.worker.Provision? {
      var m := InstanceIsWritten(cfg, w1, answers[1..], gate, w1.worker.stage.intent);
      n := 1 + m;
    } else {
      assert After(cfg, w, answers, 1) == w1;
    }
  }

  lemma PublishedRoundFinishes(cfg: Config, w: World, answers: seq<Answer>, gate: Gate, client: bool) returns (n: nat)
    requires w.worker.Provision? && w.worker.stage == PublishSecret(gate, client) && gate.instance.Some?
    requires MayWriteInstance(cfg, w.works, w.worker.round)
    requires |answers| >= 5 && Succeed(answers) && PodsRead(answers)
    ensures n <= 5 && After(cfg, w, answers, n).vc == w.vc
    ensures Mirrors(cfg, w, After(cfg, w, answers, n), Listed(w.worker.round.cluster.status.child, client, answers[1].mirror))
    ensures AboutToFinish(After(cfg, w, answers, n), w.worker.round.cluster.status.child, w.worker.round.cluster.status)
  {
    var m := CollectedRoundFinishes(cfg, RunStep(cfg, w, answers[0]), answers[1..], gate, client);
    n := 1 + m;
  }

  /** The step of a successful probe with a usable or absent endpoint. */
  lemma ProbeMoves(cfg: Config, w: World, answer: Answer, r: Round, gate: Gate)
    requires w.worker == Provision(r, ObserveChild(gate)) && AppliedInstance(gate)
    requires answer.probe.Probed? && !answer.probe.endpoint.BadEndpoint?
    ensures var probed := r.(cluster := r.cluster.(status := r.cluster.status.(child := answer.probe.child, observed := true)));
      RunStep(cfg, w, answer) == w.(worker := Provision(probed,
        if answer.probe.endpoint.NoEndpoint? then CollectMirror(gate, answer.probe.client) else PublishSecret(gate, answer.probe.client)))
  {
  }

  /** What a probing round lists: right after the probe, or after the Secret was published. */
  function ListedIn(answers: seq<Answer>): Option<seq<HostObject>>
    requires |answers| >= 3 && answers[0].probe.Probed?
  {
    var probe := answers[0].probe;
    Listed(probe.child, probe.client, if probe.endpoint.NoEndpoint? then answers[1].mirror else answers[2].mirror)
  }

  lemma ProbedRoundFinishes(cfg: Config, w: World, answers: seq<Answer>, gate: Gate) returns (n: nat)
    requires w.worker.Provision? && w.worker.stage == ObserveChild(gate) && AppliedInstance(gate)
    requires MayWriteInstance(cfg, w.works, w.worker.round)
    requires |answers| >= 6 && Succeed(answers) && PodsRead(answers)
    requires answers[0].probe.Probed? && !answers[0].probe.endpoint.BadEndpoint?
    ensures n <= 6 && After(cfg, w, answers, n).vc == w.vc
    ensures Mirrors(cfg, w, After(cfg, w, answers, n), ListedIn(answers))
    ensures var child := answers[0].probe.child;
      AboutToFinish(After(cfg, w, answers, n), child, w.worker.round.cluster.status.(child := child, observed := true))
  {
    var w1, client := RunStep(cfg, w, answers[0]), answers[0].probe.client;
    ProbeMoves(cfg, w, answers[0], w.worker.round, gate);
    var m;
    if answers[0].probe.endpoint.NoEndpoint? {
      m := CollectedRoundFinishes(cfg, w1, answers[1..], gate, client);
    } else {
      m := PublishedRoundFinishes(cfg, w1, answers[1..], gate, client);
    }
    n := 1 + m;
  }

  /** The round is over and has saved the probed flags: phase Ready if and only if the child's API, node and storage are all up,
      and Provisioning otherwise. */
  predicate Settled(w: World, uid: string, child: Child) {
    && w.worker.Idle? && w.vc.Some? && w.vc.value.uid == uid && w.vc.value.status.child == child && w.vc.value.status.observed
    && w.vc.value.status.phase == (if child == Child(true, true, true) then Ready else Provisioning)
  }

  /** From the probe to the end of the round: the flags are settled, the snapshot of the round is saved, and what was listed is
      mirrored. */
  predicate Concluded(cfg: Config, probing: World, end: World, child: Child, listed: Option<seq<HostObject>>)
    requires probing.worker.Provision? && probing.vc.Some?
  {
    && Settled(end, probing.vc.value.uid, child) && end.vc.value.status.resolved == probing.worker.round.cluster.status.resolved
    && Mirrors(cfg, probing, end, listed)
  }

  /** A round that probes an applied Instance Work and whose calls succeed settles what it probed. The endpoint is usable or absent. */
  lemma ProbedRoundSaves(cfg: Config, w: World, answers: seq<Answer>, gate: Gate) returns (n: nat)
    requires w.worker.Provision? && w.worker.stage == ObserveChild(gate) && AppliedInstance(gate) && w.vc.Some?
    requires MayWriteInstance(cfg, w.works, w.worker.round)
    requires |answers| >= 7 && Succeed(answers) && PodsRead(answers)
    requires answers[0].probe.Probed? && !answers[0].probe.endpoint.BadEndpoint?
    ensures n <= 7 && Concluded(cfg, w, After(cfg, w, answers, n), answers[0].probe.child, ListedIn(answers))
  {
    var m := ProbedRoundFinishes(cfg, w, answers, gate);
    AfterCompose(cfg, w, answers, m, 1);
    var saving := After(cfg, w, answers, m);
    SaveStores(cfg, saving, saving.worker.cluster, answers[m]);
    assert After(cfg, saving, answers[m..], 1) == RunStep(cfg, saving, answers[m]);
    n := m + 1;
  }

  // ---- a round from its start --------------------------------------------------------------------

  /** A live cluster that holds its finalizer, with its Cell and class, between two rounds. */
  predicate Live(w: World) {
    && w.worker.Idle? && w.vc.Some? && !w.vc.value.deleting && w.vc.value.finalizer && w.cell.Some? && w.class_.Some?
  }

  /** The first three steps of such a round read the cluster, the Cell and the class. */
  lemma RoundEvaluates(cfg: Config, w: World, answers: seq<Answer>)
    requires Live(w) && |answers| >= 3 && Succeed(answers)
    ensures After(cfg, w, answers, 3) == w.(worker := Evaluated(cfg, w.vc.value, w.cell.value, w.class_.value, answers[2].addresses))
  {
    Three(cfg, w, answers);
  }

  /** The stored snapshot, when there is one, is not what the Cell and the class resolve to now. */
  predicate Drifted(cfg: Config, c: Cluster, cell: Cell, class_: Class) {
    c.status.resolved.hostNamespace != "" && !SameProvider(c.status.resolved, ResolvedFor(cfg, c.uid, cell, class_))
  }

  /** The snapshot a round goes on with: the stored one, or else what the Cell and the class resolve to. */
  function KeptSnapshot(cfg: Config, c: Cluster, cell: Cell, class_: Class): Snapshot {
    if c.status.resolved.hostNamespace != "" then c.status.resolved else ResolvedFor(cfg, c.uid, cell, class_)
  }

  /** The phase of a round that ends before its first write: Degraded on a Cell that is not Ready or a plan that is undecided,
      Failed on a class that does not resolve, a drifted snapshot or a rejected plan, and as it was without host addresses. */
  function RefusedPhase(cfg: Config, c: Cluster, cell: Cell, class_: Class): Phase {
    if cell.Status().phase != CellReady then Degraded
    else if !cfg.resolvable(cell.spec, class_.spec) || Drifted(cfg, c, cell, class_) then Failed
    else match cfg.evaluate(cell.spec, cell.Status(), class_.spec)
      case Rejected => Failed
      case Undecided => Degraded
      case Accepted => c.status.phase
  }

  /** The round may go on to write. */
  predicate Goes(cfg: Config, c: Cluster, cell: Cell, class_: Class) {
    && cell.Status().phase == CellReady && cfg.resolvable(cell.spec, class_.spec) && !Drifted(cfg, c, cell, class_)
    && cfg.evaluate(cell.spec, cell.Status(), class_.spec) == Plan.Accepted
  }

  lemma RefusalSaves(cfg: Config, c: Cluster, cell: Cell, class_: Class, addresses: seq<string>)
    requires !Goes(cfg, c, cell, class_) || addresses == []
    ensures var k := Evaluated(cfg, c, cell, class_, addresses);
      && k.SaveStatus? && k.cluster.status.phase == RefusedPhase(cfg, c, cell, class_) && k.cluster.status.child == c.status.child
      && k.cluster.status.resolved == (
        if cell.Status().phase == CellReady && cfg.resolvable(cell.spec, class_.spec) then KeptSnapshot(cfg, c, cell, class_) else c.status.resolved)
  {
  }

  lemma RefusedRoundSaves(cfg: Config, w: World, answers: seq<Answer>)
    requires Live(w) && |answers| >= 4 && Succeed(answers)
    requires !Goes(cfg, w.vc.value, w.cell.value, w.class_.value) || answers[2].addresses == []
    ensures var w' := After(cfg, w, answers, 4);
      && w' == w.(vc := w'.vc) && w'.vc.Some? && w'.vc.value.uid == w.vc.value.uid
      && w'.vc.value.status.phase == RefusedPhase(cfg, w.vc.value, w.cell.value, w.class_.value)
      && w'.vc.value.status.child == w.vc.value.status.child
      && w'.vc.value.status.resolved == (
        if w.cell.value.Status().phase == CellReady && cfg.resolvable(w.cell.value.spec, w.class_.value.spec)
        then KeptSnapshot(cfg, w.vc.value, w.cell.value, w.class_.value) else w.vc.value.status.resolved)
  {
    RoundEvaluates(cfg, w, answers);
    RefusalSaves(cfg, w.vc.value, w.cell.value, w.class_.value, answers[2].addresses);
    var m, k := 3, 1;
    var saving := After(cfg, w, answers, m);
    AfterCompose(cfg, w, answers, m, k);
    One(cfg, saving, answers[m..]);
    SaveStores(cfg, saving, saving.worker.cluster, answers[m]);
  }

  /** The cluster's own Works are there and reported applied. */
  predicate Provisioned(cfg: Config, w: World, home: string, uid: string) {
    var foundation, instance := FoundationKey(cfg, home, uid), InstanceKey(cfg, home, uid);
    && foundation in w.works && MayPatch(cfg, w.works[foundation], uid) && w.works[foundation].applied && !w.works[foundation].degraded
    && instance in w.works && MayPatch(cfg, w.works[instance], uid) && w.works[instance].applied && !w.works[instance].degraded
    && foundation != instance
  }

  lemma FoundationIsPatched(cfg: Config, w: World, answer: Answer, r: Round)
    requires w.worker == Provision(r, WriteFoundation(true)) && Provisioned(cfg, w, r.cell.spec.managedCluster, r.cluster.uid) && !answer.fails
    ensures var key := FoundationKey(cfg, r.cell.spec.managedCluster, r.cluster.uid); var w' := RunStep(cfg, w, answer);
      && w' == w.(works := w'.works, worker := Provision(r, ReadFoundation)) && key in w'.works && w'.works == w.works[key := w'.works[key]]
      && w'.works[key].applied && !w'.works[key].degraded
  {
  }

  lemma WorksAreRead(cfg: Config, w: World, a: Answer, b: Answer, r: Round) returns (gate: Gate)
    requires w.worker == Provision(r, ReadFoundation) && !a.fails && !b.fails
    requires var home, uid := r.cell.spec.managedCluster, r.cluster.uid; var key, instance := FoundationKey(cfg, home, uid), InstanceKey(cfg, home, uid);
      && key in w.works && w.works[key].applied && !w.works[key].degraded
      && instance in w.works && w.works[instance].applied && !w.works[instance].degraded
    ensures AppliedInstance(gate)
    ensures RunStep(cfg, RunStep(cfg, w, a), b) == w.(worker := Provision(r, ObserveChild(gate)))
  {
    var home, uid := r.cell.spec.managedCluster, r.cluster.uid;
    var passed, instance := w.works[FoundationKey(cfg, home, uid)], w.works[InstanceKey(cfg, home, uid)];
    gate := Gate(passed, Some(instance));
    assert RunStep(cfg, w, a) == w.(worker := Provision(r, ReadInstance(passed)));
  }

  /** A round on applied Works gets as far as the probe. */
  lemma RoundProbes(cfg: Config, w: World, answers: seq<Answer>, r: Round) returns (gate: Gate)
    requires w.worker == Provision(r, CheckFoundation) && Provisioned(cfg, w, r.cell.spec.managedCluster, r.cluster.uid)
    requires |answers| >= 4 && Succeed(answers)
    ensures AppliedInstance(gate)
    ensures var w' := After(cfg, w, answers, 4);
      w' == w.(works := w'.works, worker := Provision(r, ObserveChild(gate))) && MayWriteInstance(cfg, w'.works, r)
  {
    var w1 := RunStep(cfg, w, answers[0]);
    assert w1 == w.(worker := Provision(r, WriteFoundation(true)));
    FoundationIsPatched(cfg, w1, answers[1], r);
    var w2 := RunStep(cfg, w1, answers[1]);
    gate := WorksAreRead(cfg, w2, answers[2], answers[3], r);
    Three(cfg, w, answers);
    AfterCompose(cfg, w, answers, 3, 1);
    One(cfg, RunStep(cfg, w2, answers[2]), answers[3..]);
  }

  lemma One(cfg: Config, w: World, answers: seq<Answer>)
    requires answers != []
    ensures After(cfg, w, answers, 1) == RunStep(cfg, w, answers[0])
  {
  }

  lemma RoundGoesOn(cfg: Config, c: Cluster, cell: Cell, class_: Class, addresses: seq<string>)
    requires Goes(cfg, c, cell, class_) && addresses != []
    ensures var k := Evaluated(cfg, c, cell, class_, addresses);
      && k.Provision? && k.stage.CheckFoundation? && k.round.cluster.uid == c.uid && k.round.cell == cell
      && k.round.resolved == ResolvedFor(cfg, c.uid, cell, class_) && k.round.addresses == addresses
      && k.round.cluster.status.resolved == KeptSnapshot(cfg, c, cell, class_)
  {
  }

  lemma RoundReachesProbe(cfg: Config, w: World, answers: seq<Answer>) returns (n: nat, gate: Gate)
    requires Live(w) && Goes(cfg, w.vc.value, w.cell.value, w.class_.value)
    requires Provisioned(cfg, w, w.cell.value.spec.managedCluster, w.vc.value.uid)
    requires |answers| >= 7 && Succeed(answers) && answers[2].addresses != []
    ensures n == 7 && AppliedInstance(gate) && Evaluated(cfg, w.vc.value, w.cell.value, w.class_.value, answers[2].addresses).Provision?
    ensures var w' := After(cfg, w, answers, n);
      && w'.vc == w.vc && w'.worker.Provision? && w'.worker.stage == ObserveChild(gate) && MayWriteInstance(cfg, w'.works, w'.worker.round)
      && w'.worker.round == Evaluated(cfg, w.vc.value, w.cell.value, w.class_.value, answers[2].addresses).round
  {
    RoundEvaluates(cfg, w, answers);
    RoundGoesOn(cfg, w.vc.value, w.cell.value, w.class_.value, answers[2].addresses);
    var m, k := 3, 4;
    var w3 := After(cfg, w, answers, m);
    gate := RoundProbes(cfg, w3, answers[m..], w3.worker.round);
    AfterCompose(cfg, w, answers, m, k);
    n := m + k;
  }

  /** What a probed round concludes, counted from an earlier start. */
  lemma ProbedLater(cfg: Config, w: World, answers: seq<Answer>, m: nat, probing: World, rest: seq<Answer>, gate: Gate) returns (n: nat)
    requires m <= |answers| && rest == answers[m..] && After(cfg, w, answers, m) == probing
    requires probing.worker.Provision? && probing.worker.stage == ObserveChild(gate) && AppliedInstance(gate) && probing.vc.Some?
    requires MayWriteInstance(cfg, probing.works, probing.worker.round)
    requires |rest| >= 7 && Succeed(rest) && PodsRead(rest) && rest[0].probe.Probed? && !rest[0].probe.endpoint.BadEndpoint?
    ensures n <= m + 7 && n <= |answers| && Concluded(cfg, probing, After(cfg, w, answers, n), rest[0].probe.child, ListedIn(rest))
  {
    var k := ProbedRoundSaves(cfg, probing, rest, gate);
    AfterCompose(cfg, w, answers, m, k);
    n := m + k;
  }

  /** Every whole round of a provisioned cluster on an accepting Cell, whatever its phase was: it ends with the probed flags
      saved, in phase Ready if and only if all three are true and in phase Provisioning otherwise. */
  lemma RoundSettles(cfg: Config, w: World, answers: seq<Answer>) returns (n: nat)
    requires Live(w) && Goes(cfg, w.vc.value, w.cell.value, w.class_.value)
    requires Provisioned(cfg, w, w.cell.value.spec.managedCluster, w.vc.value.uid)
    requires |answers| >= 14 && Succeed(answers) && PodsRead(answers)
    requires answers[2].addresses != [] && answers[7].probe.Probed? && !answers[7].probe.endpoint.BadEndpoint?
    ensures n <= 14 && Settled(After(cfg, w, answers, n), w.vc.value.uid, answers[7].probe.child)
    ensures After(cfg, w, answers, n).vc.value.status.resolved == KeptSnapshot(cfg, w.vc.value, w.cell.value, w.class_.value)
    ensures ListedIn(answers[7..]).Some? ==>
      var home, uid := w.cell.value.spec.managedCluster, w.vc.value.uid; var works := After(cfg, w, answers, n).works;
      InstanceKey(cfg, home, uid) in works && works[InstanceKey(cfg, home, uid)].spec
        == InstanceSpec(ResolvedFor(cfg, uid, w.cell.value, w.class_.value), answers[2].addresses, ListedIn(answers[7..]).value)
  {
    var m, gate := RoundReachesProbe(cfg, w, answers);
    LaterAnswers(answers, m);
    n := ProbedLater(cfg, w, answers, m, After(cfg, w, answers, m), answers[m..], gate);
    RoundGoesOn(cfg, w.vc.value, w.cell.value, w.class_.value, answers[2].addresses);
  }

  // ---- rounds that end earlier -------------------------------------------------------------------

  /** A failed probe takes the flags back, and a Ready cluster becomes Degraded. */
  lemma FailedProbeSaves(cfg: Config, w: World, answers: seq<Answer>, gate: Gate)
    requires w.worker.Provision? && w.worker.stage == ObserveChild(gate) && AppliedInstance(gate) && w.vc.Some?
    requires |answers| >= 2 && Succeed(answers) && answers[0].probe.ProbeFailed?
    ensures var status := w.worker.round.cluster.status; var w' := After(cfg, w, answers, 2);
      && w' == w.(vc := w'.vc, worker := Idle) && w'.vc.Some? && w'.vc.value.status.child == Child(false, false, false)
      && w'.vc.value.status.phase == (if status.phase == Ready then Degraded else status.phase)
  {
    var w1 := RunStep(cfg, w, answers[0]);
    assert w1.worker.SaveStatus?;
    SaveStores(cfg, w1, w1.worker.cluster, answers[1]);
    One(cfg, w1, answers[1..]);
  }

  /** A Foundation Work that is degraded or not applied yet ends the round in phase Degraded or Provisioning. */
  lemma UnappliedFoundationSaves(cfg: Config, w: World, answers: seq<Answer>)
    requires w.worker.Provision? && w.worker.stage.ReadFoundation? && w.vc.Some? && |answers| >= 2 && Succeed(answers)
    requires var r := w.worker.round; var key := FoundationKey(cfg, r.cell.spec.managedCluster, r.cluster.uid);
      key in w.works && (w.works[key].degraded || !w.works[key].applied)
    ensures var r := w.worker.round; var key := FoundationKey(cfg, r.cell.spec.managedCluster, r.cluster.uid);
      var w' := After(cfg, w, answers, 2);
      && w' == w.(vc := w'.vc, worker := Idle) && w'.vc.Some?
      && w'.vc.value.status == r.cluster.status.(phase := if w.works[key].degraded then Degraded else Provisioning)
  {
    var w1 := RunStep(cfg, w, answers[0]);
    assert w1.worker.SaveStatus?;
    SaveStores(cfg, w1, w1.worker.cluster, answers[1]);
    One(cfg, w1, answers[1..]);
  }

  lemma DegradedInstanceSaves(cfg: Config, w: World, answers: seq<Answer>)
    requires w.worker.Provision? && w.worker.stage.ReadInstance? && w.vc.Some? && |answers| >= 2 && Succeed(answers)
    requires var r := w.worker.round; var key := InstanceKey(cfg, r.cell.spec.managedCluster, r.cluster.uid);
      key in w.works && w.works[key].degraded
    ensures var w' := After(cfg, w, answers, 2);
      w' == w.(vc := w'.vc, worker := Idle) && w'.vc.Some? && w'.vc.value.status == w.worker.round.cluster.status.(phase := Degraded)
  {
    var w1 := RunStep(cfg, w, answers[0]);
    assert w1.worker.SaveStatus?;
    SaveStores(cfg, w1, w1.worker.cluster, answers[1]);
    One(cfg, w1, answers[1..]);
  }

  /** Without an observer, or with an Instance Work that is not applied yet, the stored flags decide the phase; an observer that is
      not available leaves the status as it is. */
  lemma UnprobedRoundSaves(cfg: Config, w: World, answers: seq<Answer>, gate: Gate)
    requires w.worker.Provision? && w.worker.stage == ObserveChild(gate) && gate.instance.Some? && w.vc.Some? && |answers| >= 2 && Succeed(answers)
    requires answers[0].probe.NoObserver? || answers[0].probe.ObserverUnavailable? || !gate.instance.value.applied
    ensures var status := w.worker.round.cluster.status; var w' := After(cfg, w, answers, 2);
      && w' == w.(vc := w'.vc, worker := Idle) && w'.vc.Some?
      && w'.vc.value.status == (
        if answers[0].probe.ObserverUnavailable? then status
        else status.(phase := if status.child == Child(true, true, true) then Ready else Provisioning))
  {
    var w1 := RunStep(cfg, w, answers[0]);
    assert w1.worker.SaveStatus?;
    SaveStores(cfg, w1, w1.worker.cluster, answers[1]);
    One(cfg, w1, answers[1..]);
  }

  /** Pods that cannot be read end the round with the probed flags saved and the phase as it was. */
  lemma UnreadPodsSave(cfg: Config, w: World, answers: seq<Answer>, gate: Gate, client: bool)
    requires w.worker.Provision? && w.worker.stage == CollectMirror(gate, client) && w.vc.Some? && |answers| >= 2 && Succeed(answers)
    requires w.worker.round.cluster.status.child.api && w.worker.round.cluster.status.child.node && !answers[0].podsRead
    ensures var w' := After(cfg, w, answers, 2);
      w' == w.(vc := w'.vc, worker := Idle) && w'.vc.Some? && w'.vc.value.status == w.worker.round.cluster.status
  {
    var w1 := RunStep(cfg, w, answers[0]);
    assert w1.worker.SaveStatus?;
    SaveStores(cfg, w1, w1.worker.cluster, answers[1]);
    One(cfg, w1, answers[1..]);
  }

  // ---- what rounds write -------------------------------------------------------------------------

  lemma FoundationIsPut(cfg: Config, w: World, answers: seq<Answer>, r: Round)
    requires w.worker == Provision(r, CheckFoundation) && |answers| >= 2 && Succeed(answers)
    requires MayWrite(cfg, w.works, FoundationKey(cfg, r.cell.spec.managedCluster, r.cluster.uid), r.cluster.uid)
    ensures var key := FoundationKey(cfg, r.cell.spec.managedCluster, r.cluster.uid); var w' := After(cfg, w, answers, 2);
      && key in w'.works && w'.works == w.works[key := w'.works[key]] && w'.works[key].Uid() == r.cluster.uid
      && w'.works[key].spec == FoundationSpec(r.resolved, r.addresses)
  {
    var key := FoundationKey(cfg, r.cell.spec.managedCluster, r.cluster.uid);
    var w1 := RunStep(cfg, w, answers[0]);
    assert w1 == w.(worker := Provision(r, WriteFoundation(key in w.works)));
    PutIsOwned(cfg, w1.works, key, r.cluster.uid, r.resolved, FoundationSpec(r.resolved, r.addresses), key in w.works);
    One(cfg, w1, answers[1..]);
  }

  /** A round that may go on writes the Foundation Work, with the current resolution and the addresses it was given. */
  lemma RoundWritesFoundation(cfg: Config, w: World, answers: seq<Answer>) returns (n: nat)
    requires Live(w) && Goes(cfg, w.vc.value, w.cell.value, w.class_.value) && |answers| >= 5 && Succeed(answers) && answers[2].addresses != []
    requires MayWrite(cfg, w.works, FoundationKey(cfg, w.cell.value.spec.managedCluster, w.vc.value.uid), w.vc.value.uid)
    ensures n == 5
    ensures var key := FoundationKey(cfg, w.cell.value.spec.managedCluster, w.vc.value.uid); var works := After(cfg, w, answers, n).works;
      && key in works && works == w.works[key := works[key]] && works[key].Uid() == w.vc.value.uid
      && works[key].spec == FoundationSpec(ResolvedFor(cfg, w.vc.value.uid, w.cell.value, w.class_.value), answers[2].addresses)
  {
    RoundEvaluates(cfg, w, answers);
    RoundGoesOn(cfg, w.vc.value, w.cell.value, w.class_.value, answers[2].addresses);
    var m, k := 3, 2;
    var w3 := After(cfg, w, answers, m);
    FoundationIsPut(cfg, w3, answers[m..], w3.worker.round);
    AfterCompose(cfg, w, answers, m, k);
    n := m + k;
  }

  /** Behind an applied Foundation Work a missing Instance Work is created, with no mirrored objects, observed or not. */
  lemma InstanceIsCreated(cfg: Config, w: World, answers: seq<Answer>, gate: Gate) returns (n: nat)
    requires w.worker.Provision? && w.worker.stage == ObserveChild(gate) && gate.instance.None? && MayWriteInstance(cfg, w.works, w.worker.round)
    requires |answers| >= 4 && Succeed(answers) && !answers[0].probe.ObserverUnavailable?
    ensures n <= 4 && HoldsInstance(cfg, After(cfg, w, answers, n), w.worker.round, [])
  {
    var w1 := RunStep(cfg, w, answers[0]);
    var m := InstanceIsWritten(cfg, w1, answers[1..], gate, Intent([], false, false));
    n := 1 + m;
  }
}
