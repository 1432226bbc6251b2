/** A deletion makes progress: a round asks for the deletion of the Instance Work, a round that finds it gone for that of the
    Foundation Work, a round that finds both gone removes the finalizer; and what blocks a deletion
    (internal/controller/virtualcluster_controller.go:517-573). */
module LifecycleDeletion {
  import opened Api
  import opened Resolution
  import opened Lifecycle
  import opened LifecycleInvariants
  import opened LifecycleOrphans
  import opened LifecycleGates
  import opened LifecycleProgress

  // ---- where a deletion looks --------------------------------------------------------------------

  /** A deleted cluster with its finalizer, between two rounds. */
  predicate Marked(w: World) {
    w.worker.Idle? && w.vc.Some? && w.vc.value.deleting && w.vc.value.finalizer
  }

  /** The saved managed cluster, or else the Cell's; "" when neither is known. */
  function HomeOf(c: Cluster, cell: Option<Cell>): string {
    if c.status.resolved.managedCluster != "" then c.status.resolved.managedCluster
    else if cell.Some? then cell.value.spec.managedCluster else ""
  }

  function Home(w: World): string
    requires w.vc.Some?
  {
    HomeOf(w.vc.value, w.cell)
  }

  predicate SecretAbsentOrOwn(cfg: Config, w: World, uid: string) {
    SecretName(cfg, uid) in w.secrets ==> w.secrets[SecretName(cfg, uid)] == uid
  }

  // ---- the reads of a round ----------------------------------------------------------------------

  lemma SecretGoes(cfg: Config, w: World, answers: seq<Answer>, c: Cluster) returns (n: nat)
    requires w.worker == Cleanup(c, CheckSecret) && SecretAbsentOrOwn(cfg, w, c.uid) && |answers| >= 2 && Succeed(answers)
    ensures n <= 2 && After(cfg, w, answers, n) == w.(secrets := w.secrets - {SecretName(cfg, c.uid)}, worker := Cleanup(c, Locate))
  {
    var w1 := RunStep(cfg, w, answers[0]);
    if SecretName(cfg, c.uid) in w.secrets {
      assert w1 == w.(worker := Cleanup(c, DeleteSecret));
      One(cfg, w1, answers[1..]);
      n := 2;
    } else {
      assert w.secrets - {SecretName(cfg, c.uid)} == w.secrets;
      One(cfg, w, answers);
      n := 1;
    }
  }

  lemma HomeIsSearched(cfg: Config, w: World, answers: seq<Answer>, c: Cluster) returns (n: nat)
    requires w.worker == Cleanup(c, Locate) && HomeOf(c, w.cell) != "" && |answers| >= 2 && Succeed(answers)
    ensures n == 2 && After(cfg, w, answers, n)
      == w.(worker := Cleanup(c, FindFoundation(HomeOf(c, w.cell), FindWork(w.works, InstanceKey(cfg, HomeOf(c, w.cell), c.uid)))))
  {
    var w1 := RunStep(cfg, w, answers[0]);
    assert w1 == w.(worker := Cleanup(c, FindInstance(HomeOf(c, w.cell))));
    One(cfg, w1, answers[1..]);
    n := 2;
  }

  /** Up to the read of the Foundation Work; the admin Secret is gone by then. */
  lemma RoundLooks(cfg: Config, w: World, answers: seq<Answer>) returns (n: nat)
    requires Marked(w) && SecretAbsentOrOwn(cfg, w, w.vc.value.uid) && Home(w) != "" && |answers| >= 5 && Succeed(answers)
    ensures n <= 5 && After(cfg, w, answers, n)
      == w.(secrets := w.secrets - {SecretName(cfg, w.vc.value.uid)},
            worker := Cleanup(w.vc.value, FindFoundation(Home(w), FindWork(w.works, InstanceKey(cfg, Home(w), w.vc.value.uid)))))
  {
    var c := w.vc.value;
    var w1 := RunStep(cfg, w, answers[0]);
    assert w1 == w.(worker := Cleanup(c, CheckSecret));
    var rest := answers[1..];
    var m := SecretGoes(cfg, w1, rest, c);
    var located := After(cfg, w1, rest, m);
    LaterAnswers(rest, m);
    var k := HomeIsSearched(cfg, located, rest[m..], c);
    AfterCompose(cfg, w1, rest, m, k);
    n := 1 + (m + k);
  }

  // ---- the rest of a round -----------------------------------------------------------------------

  /** The Work that a deletion round goes for. */
  function Next(cfg: Config, works: map<Key, Work>, home: string, uid: string): Option<Key> {
    if InstanceKey(cfg, home, uid) in works then Some(InstanceKey(cfg, home, uid))
    else if FoundationKey(cfg, home, uid) in works then Some(FoundationKey(cfg, home, uid))
    else None
  }

  /** Both derived keys hold nothing or the cluster's own Work. */
  predicate Unblocked(cfg: Config, works: map<Key, Work>, home: string, uid: string) {
    && home != "" && uid != "" && cfg.names(uid).instanceWork != "" && cfg.names(uid).foundationWork != ""
    && OwnedAt(works, InstanceKey(cfg, home, uid), uid) && OwnedAt(works, FoundationKey(cfg, home, uid), uid)
  }

  lemma Chosen(cfg: Config, w: World, answer: Answer, c: Cluster, home: string)
    requires Unblocked(cfg, w.works, home, c.uid) && !answer.fails
    requires w.worker == Cleanup(c, FindFoundation(home, FindWork(w.works, InstanceKey(cfg, home, c.uid))))
    ensures var next := Next(cfg, w.works, home, c.uid);
      RunStep(cfg, w, answer) == w.(worker := Cleanup(c, if next.Some? then DeleteWork(home, next.value) else RemoveFinalizer(home)))
  {
  }

  /** The request for the deletion of a Work and the save of phase Deleting. */
  lemma WorkGoes(cfg: Config, w: World, answers: seq<Answer>, c: Cluster, home: string, key: Key)
    requires w.worker == Cleanup(c, DeleteWork(home, key)) && key in w.works && w.vc.Some? && |answers| >= 2 && Succeed(answers)
    ensures !w.works[key].deleting || !answers[0].lingers ==> Deletes(w, After(cfg, w, answers, 1), key)
    ensures var w' := After(cfg, w, answers, 2);
      && w' == w.(works := w'.works, vc := Some(Saved(w.vc.value, c.status.(phase := Deleting))), worker := Idle)
      && (!answers[0].lingers ==> w'.works == w.works - {key})
  {
    var w1 := RunStep(cfg, w, answers[0]);
    One(cfg, w, answers);
    SaveStores(cfg, w1, WithPhase(c, Deleting), answers[1]);
    One(cfg, w1, answers[1..]);
  }

  /** The world with the admin Secret gone. */
  function SecretGone(cfg: Config, w: World): World
    requires w.vc.Some?
  {
    w.(secrets := w.secrets - {SecretName(cfg, w.vc.value.uid)})
  }

  lemma RoundChooses(cfg: Config, w: World, answers: seq<Answer>) returns (n: nat)
    requires Marked(w) && Unblocked(cfg, w.works, Home(w), w.vc.value.uid) && SecretAbsentOrOwn(cfg, w, w.vc.value.uid)
    requires |answers| >= 6 && Succeed(answers)
    ensures var next := Next(cfg, w.works, Home(w), w.vc.value.uid);
      && n <= 6 && After(cfg, w, answers, n) == SecretGone(cfg, w).(worker :=
        Cleanup(w.vc.value, if next.Some? then DeleteWork(Home(w), next.value) else RemoveFinalizer(Home(w))))
  {
    var k := RoundLooks(cfg, w, answers);
    var looked := After(cfg, w, answers, k);
    Chosen(cfg, looked, answers[k], w.vc.value, Home(w));
    AfterCompose(cfg, w, answers, k, 1);
    One(cfg, looked, answers[k..]);
    n := k + 1;
  }

  /** The cluster after a round that asked for a deletion. */
  function Waiting(c: Cluster): Cluster {
    Saved(c, c.status.(phase := Deleting))
  }

  /** A round that finds a Work of its cluster asks for its deletion, and saves phase Deleting. */
  lemma RoundDeletes(cfg: Config, w: World, answers: seq<Answer>, key: Key) returns (m: nat, n: nat)
    requires Marked(w) && Unblocked(cfg, w.works, Home(w), w.vc.value.uid) && SecretAbsentOrOwn(cfg, w, w.vc.value.uid)
    requires Next(cfg, w.works, Home(w), w.vc.value.uid) == Some(key) && |answers| >= 8 && Succeed(answers)
    ensures m < n <= 8
    ensures !w.works[key].deleting || !answers[m].lingers ==> Deletes(After(cfg, w, answers, m), After(cfg, w, answers, m + 1), key)
    ensures var w' := After(cfg, w, answers, n);
      && w' == SecretGone(cfg, w).(works := w'.works, vc := Some(Waiting(w.vc.value)))
      && (!answers[m].lingers ==> w'.works == w.works - {key})
  {
    m := RoundChooses(cfg, w, answers);
    LaterAnswers(answers, m);
    WorkGoes(cfg, After(cfg, w, answers, m), answers[m..], w.vc.value, Home(w), key);
    AfterCompose(cfg, w, answers, m, 1);
    AfterCompose(cfg, w, answers, m, 2);
    n := m + 2;
  }

  /** A round that finds none removes the finalizer. */
  lemma RoundRemoves(cfg: Config, w: World, answers: seq<Answer>) returns (n: nat)
    requires Marked(w) && Unblocked(cfg, w.works, Home(w), w.vc.value.uid) && SecretAbsentOrOwn(cfg, w, w.vc.value.uid)
    requires Next(cfg, w.works, Home(w), w.vc.value.uid).None? && |answers| >= 8 && Succeed(answers)
    ensures n <= 8 && After(cfg, w, answers, n) == SecretGone(cfg, w).(vc := None)
  {
    var k := RoundChooses(cfg, w, answers);
    AfterCompose(cfg, w, answers, k, 1);
    One(cfg, After(cfg, w, answers, k), answers[k..]);
    n := k + 1;
  }

  // ---- the theorems ------------------------------------------------------------------------------

  /** What a deletion may meet at the home of its cluster: the cluster's own Works and Secret, or none. */
  predicate Deletable(cfg: Config, w: World) {
    Marked(w) && Unblocked(cfg, w.works, Home(w), w.vc.value.uid) && SecretAbsentOrOwn(cfg, w, w.vc.value.uid)
  }

  /** It is met wherever no foreign object sits under a derived name. */
  lemma SoundIsDeletable(cfg: Config, w: World)
    requires Usable(cfg) && Sound(cfg, w) && Marked(w) && (w.vc.value.status.resolved != NO_SNAPSHOT || w.cell.Some?)
    requires OwnedAt(w.works, InstanceKey(cfg, Home(w), w.vc.value.uid), w.vc.value.uid)
    requires OwnedAt(w.works, FoundationKey(cfg, Home(w), w.vc.value.uid), w.vc.value.uid)
    requires SecretAbsentOrOwn(cfg, w, w.vc.value.uid)
    ensures Deletable(cfg, w)
  {
    assert cfg.names(w.vc.value.uid).instanceWork != "" && cfg.names(w.vc.value.uid).foundationWork != "";
  }

  /** A round that finds the cluster's Instance Work contains the step that deletes it. */
  lemma InstanceIsDeleted(cfg: Config, w: World, answers: seq<Answer>) returns (m: nat)
    requires Deletable(cfg, w) && |answers| >= 8 && Succeed(answers)
    requires var key := InstanceKey(cfg, Home(w), w.vc.value.uid); key in w.works && !w.works[key].deleting
    ensures m < 8 && Deletes(After(cfg, w, answers, m), After(cfg, w, answers, m + 1), InstanceKey(cfg, Home(w), w.vc.value.uid))
  {
    var n;
    m, n := RoundDeletes(cfg, w, answers, InstanceKey(cfg, Home(w), w.vc.value.uid));
  }

  /** A round that finds only the Foundation Work contains the step that deletes that one. */
  lemma FoundationIsDeleted(cfg: Config, w: World, answers: seq<Answer>) returns (m: nat)
    requires Deletable(cfg, w) && |answers| >= 8 && Succeed(answers) && InstanceKey(cfg, Home(w), w.vc.value.uid) !in w.works
    requires var key := FoundationKey(cfg, Home(w), w.vc.value.uid); key in w.works && !w.works[key].deleting
    ensures m < 8 && Deletes(After(cfg, w, answers, m), After(cfg, w, answers, m + 1), FoundationKey(cfg, Home(w), w.vc.value.uid))
  {
    var n;
    m, n := RoundDeletes(cfg, w, answers, FoundationKey(cfg, Home(w), w.vc.value.uid));
  }

  predicate NothingLingers(answers: seq<Answer>) {
    Succeed(answers) && forall i :: 0 <= i < |answers| ==> !answers[i].lingers
  }

  function CountAt(works: map<Key, Work>, key: Key): nat {
    if key in works then 1 else 0
  }

  /** How many Works a deletion still has to take. */
  function Remaining(cfg: Config, w: World): nat
    requires w.vc.Some?
  {
    CountAt(w.works, InstanceKey(cfg, Home(w), w.vc.value.uid)) + CountAt(w.works, FoundationKey(cfg, Home(w), w.vc.value.uid))
  }

  /** The cluster is gone with its two Works and its Secret, and everything else is as it was. */
  function Ended(cfg: Config, w: World): World
    requires w.vc.Some?
  {
    var uid := w.vc.value.uid;
    SecretGone(cfg, w).(vc := None, works := w.works - {InstanceKey(cfg, Home(w), uid), FoundationKey(cfg, Home(w), uid)})
  }

  lemma OneWorkLess(cfg: Config, w: World, w': World, key: Key)
    requires Deletable(cfg, w) && Next(cfg, w.works, Home(w), w.vc.value.uid) == Some(key)
    requires w' == SecretGone(cfg, w).(works := w.works - {key}, vc := Some(Waiting(w.vc.value)))
    ensures Deletable(cfg, w') && Remaining(cfg, w') < Remaining(cfg, w) && Ended(cfg, w') == Ended(cfg, w)
  {
  }

  /** A round that finds a Work leaves one less. */
  lemma RoundShrinks(cfg: Config, w: World, answers: seq<Answer>) returns (n: nat)
    requires Deletable(cfg, w) && Next(cfg, w.works, Home(w), w.vc.value.uid).Some? && |answers| >= 8 && NothingLingers(answers)
    ensures n <= 8
    ensures var w' := After(cfg, w, answers, n); Deletable(cfg, w') && Remaining(cfg, w') < Remaining(cfg, w) && Ended(cfg, w') == Ended(cfg, w)
  {
    var key, m := Next(cfg, w.works, Home(w), w.vc.value.uid).value, 0;
    m, n := RoundDeletes(cfg, w, answers, key);
    OneWorkLess(cfg, w, After(cfg, w, answers, n), key);
  }

  lemma LastRound(cfg: Config, w: World, answers: seq<Answer>) returns (n: nat)
    requires Deletable(cfg, w) && Next(cfg, w.works, Home(w), w.vc.value.uid).None? && |answers| >= 8 && Succeed(answers)
    ensures n <= 8 && After(cfg, w, answers, n) == Ended(cfg, w)
  {
    n := RoundRemoves(cfg, w, answers);
    assert w.works - {InstanceKey(cfg, Home(w), w.vc.value.uid), FoundationKey(cfg, Home(w), w.vc.value.uid)} == w.works;
  }

  /** A deletion ends, after at most three rounds: the cluster is gone, and so are its Works at the home and its admin Secret;
      everything else is as it was. */
  lemma DeletionEnds(cfg: Config, w: World, answers: seq<Answer>) returns (n: nat)
    requires Deletable(cfg, w) && |answers| >= 8 * (1 + Remaining(cfg, w)) && NothingLingers(answers)
    ensures n <= 8 * (1 + Remaining(cfg, w)) && After(cfg, w, answers, n) == Ended(cfg, w)
    decreases Remaining(cfg, w)
  {
    if Next(cfg, w.works, Home(w), w.vc.value.uid).None? {
      n := LastRound(cfg, w, answers);
    } else {
      var k := RoundShrinks(cfg, w, answers);
      var rest := DeletionEnds(cfg, After(cfg, w, answers, k), answers[k..]);
      AfterCompose(cfg, w, answers, k, rest);
      n := k + rest;
    }
  }

  /** Nothing of the UID is left where the deletion looked. */
  predicate Clean(w: World, uid: string, home: string) {
    && (forall k :: k in w.works && k.0 == home ==> w.works[k].Uid() != uid)
    && (forall s :: s in w.secrets ==> w.secrets[s] != uid)
  }

  lemma EndIsClean(cfg: Config, w: World)
    requires Sound(cfg, w) && w.vc.Some?
    ensures Clean(Ended(cfg, w), w.vc.value.uid, Home(w))
  {
    var uid := w.vc.value.uid;
    assert NamedFor(cfg, uid, w.works, w.secrets);
    assert forall k: Key :: k.0 == Home(w) && WorkNamed(cfg, k, uid) ==> k == InstanceKey(cfg, Home(w), uid) || k == FoundationKey(cfg, Home(w), uid);
  }

  /** From every sound world between two rounds: 24 steps whose calls succeed and whose Works do not linger are enough to remove
      a deleted cluster, and no Work at its home and no Secret with its UID is left. */
  lemma DeletionLeavesNothing(cfg: Config, w: World, answers: seq<Answer>) returns (n: nat)
    requires Usable(cfg) && Sound(cfg, w) && Deletable(cfg, w) && |answers| >= 24 && NothingLingers(answers)
    ensures n <= 24 && After(cfg, w, answers, n).vc.None? && Clean(After(cfg, w, answers, n), w.vc.value.uid, Home(w))
  {
    n := DeletionEnds(cfg, w, answers);
    EndIsClean(cfg, w);
  }

  lemma HomedAtHome(w: World)
    requires Attached(w) && Homed(w) && w.vc.Some?
    ensures AllAt(w.works, w.vc.value.uid, Home(w))
  {
  }

  /** On every steady run from the start, at every point between two rounds: such a deletion ends with no Work and no Secret of
      the UID left anywhere. */
  lemma DeletionCompletes(cfg: Config, start: World, actions: seq<Action>, answers: seq<Answer>) returns (n: nat)
    requires Usable(cfg) && Init(start) && Allowed(cfg, start, actions, Steady)
    requires Deletable(cfg, Run(cfg, start, actions)) && |answers| >= 24 && NothingLingers(answers)
    ensures n <= 24
    ensures var w := Run(cfg, start, actions); var end := After(cfg, w, answers, n); var uid := w.vc.value.uid;
      && end.vc.None? && (forall k :: k in end.works ==> end.works[k].Uid() != uid) && (forall s :: s in end.secrets ==> end.secrets[s] != uid)
  {
    var w := Run(cfg, start, actions);
    AlwaysSound(cfg, start, actions);
    AlwaysHomed(cfg, start, actions);
    HomedAtHome(w);
    n := DeletionEnds(cfg, w, answers);
    EndIsClean(cfg, w);
  }

  // ---- what blocks a deletion --------------------------------------------------------------------

  /** The round is over and the cluster waits: its Works are as they were. */
  predicate Waits(before: World, after: World) {
    && after.worker.Idle? && after.works == before.works && before.vc.Some? && after.vc.Some?
    && after.vc.value == before.vc.value.(status := after.vc.value.status, version := after.vc.value.version)
  }

  lemma ForeignSecretWaits(cfg: Config, w: World, answers: seq<Answer>)
    requires Marked(w) && !SecretAbsentOrOwn(cfg, w, w.vc.value.uid) && |answers| >= 2 && Succeed(answers)
    ensures After(cfg, w, answers, 2) == w
  {
    var w1 := RunStep(cfg, w, answers[0]);
    assert w1 == w.(worker := Cleanup(w.vc.value, CheckSecret));
    One(cfg, w1, answers[1..]);
  }

  lemma UnknownHomeWaits(cfg: Config, w: World, answers: seq<Answer>) returns (n: nat)
    requires Marked(w) && SecretAbsentOrOwn(cfg, w, w.vc.value.uid) && |answers| >= 5 && Succeed(answers)
    requires w.vc.value.status.resolved.managedCluster == "" && w.cell.None?
    ensures n <= 5 && Waits(w, After(cfg, w, answers, n)) && After(cfg, w, answers, n).vc.value.status.phase == Deleting
  {
    var c := w.vc.value;
    var w1 := RunStep(cfg, w, answers[0]);
    var rest := answers[1..];
    var m := SecretGoes(cfg, w1, rest, c);
    var w2 := After(cfg, w1, rest, m);
    AfterCompose(cfg, w1, rest, m, 2);
    var w3 := RunStep(cfg, w2, rest[m]);
    assert w3 == w2.(worker := SaveStatus(WithPhase(c, Deleting)));
    SaveStores(cfg, w3, WithPhase(c, Deleting), rest[m + 1]);
    One(cfg, w3, rest[m..][1..]);
    n := 1 + (m + 2);
  }

  lemma ForeignWorkWaits(cfg: Config, w: World, answers: seq<Answer>) returns (n: nat)
    requires Usable(cfg) && Attached(w) && Marked(w) && SecretAbsentOrOwn(cfg, w, w.vc.value.uid) && Home(w) != "" && |answers| >= 7 && Succeed(answers)
    requires !Unblocked(cfg, w.works, Home(w), w.vc.value.uid)
    ensures n <= 7 && Waits(w, After(cfg, w, answers, n)) && After(cfg, w, answers, n).vc.value.status.phase == Deleting
  {
    var c := w.vc.value;
    var m := RoundLooks(cfg, w, answers);
    var w2 := After(cfg, w, answers, m);
    AfterCompose(cfg, w, answers, m, 2);
    var w3 := RunStep(cfg, w2, answers[m]);
    assert w3 == w2.(worker := SaveStatus(WithPhase(c, Deleting)));
    SaveStores(cfg, w3, WithPhase(c, Deleting), answers[m + 1]);
    One(cfg, w3, answers[m..][1..]);
    n := m + 2;
  }

  /** The condition is exact: where the home is unknown or a foreign object sits under a derived name, a round touches no Work,
      and the cluster waits with its finalizer, in phase Deleting unless the Secret is foreign. */
  lemma BlockedRoundWaits(cfg: Config, w: World, answers: seq<Answer>) returns (n: nat)
    requires Usable(cfg) && Sound(cfg, w) && Marked(w) && !Deletable(cfg, w) && |answers| >= 7 && Succeed(answers)
    ensures n <= 7 && Waits(w, After(cfg, w, answers, n))
    ensures SecretAbsentOrOwn(cfg, w, w.vc.value.uid) ==> After(cfg, w, answers, n).vc.value.status.phase == Deleting
  {
    if !SecretAbsentOrOwn(cfg, w, w.vc.value.uid) {
      ForeignSecretWaits(cfg, w, answers);
      n := 2;
    } else if Home(w) == "" {
      n := UnknownHomeWaits(cfg, w, answers);
    } else {
      n := ForeignWorkWaits(cfg, w, answers);
    }
  }
}
