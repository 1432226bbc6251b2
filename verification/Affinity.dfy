/** Required node affinity, what it means to the Kubernetes scheduler, and the rewriting that ties a Pod to its machine
    profile (internal/admission/host_workload.go:222-247, 423-430; internal/admission/host_webhook.go:128-134). */
module Affinity {
  import opened Api

  datatype Operator = In | NotIn | Exists | DoesNotExist | Gt | Lt

  datatype Requirement = Requirement(key: string, operator: Operator, values: seq<string>)

  /** One alternative: match expressions over labels and match fields over the node's name. */
  datatype Term = Term(expressions: seq<Requirement>, fields: seq<Requirement>) {
    predicate Empty() { expressions == [] && fields == [] }
  }

  /** None is an absent selector, which admits every node. */
  type Selector = Option<seq<Term>>

  // ---- meaning -----------------------------------------------------------------------------------

  datatype HostNode = HostNode(labels: map<string, string>, fields: map<string, string>)

  /** Whether the first text is a smaller integer than the second, for Gt and Lt. */
  type Less = (string, string) -> bool

  predicate Holds(less: Less, r: Requirement, at: map<string, string>) {
    match r.operator
    case In => r.key in at && at[r.key] in r.values
    case NotIn => r.key !in at || at[r.key] !in r.values
    case Exists => r.key in at
    case DoesNotExist => r.key !in at
    case Gt => r.key in at && |r.values| == 1 && less(r.values[0], at[r.key])
    case Lt => r.key in at && |r.values| == 1 && less(at[r.key], r.values[0])
  }

  /** All requirements of a term hold; an empty term matches no node. */
  predicate TermMatches(less: Less, t: Term, n: HostNode) {
    && !t.Empty()
    && (forall i :: 0 <= i < |t.expressions| ==> Holds(less, t.expressions[i], n.labels))
    && (forall i :: 0 <= i < |t.fields| ==> Holds(less, t.fields[i], n.fields))
  }

  /** Some term matches. */
  predicate Admits(less: Less, s: Selector, n: HostNode) {
    s.None? || exists i :: 0 <= i < |s.value| && TermMatches(less, s.value[i], n)
  }

  predicate OfProfile(n: HostNode, key: string, profile: string) {
    key in n.labels && n.labels[key] == profile
  }

  // ---- the rewriting -----------------------------------------------------------------------------

  function ProfileRequirement(key: string, profile: string): Requirement {
    Requirement(key, In, [profile])
  }

  predicate Requires(t: Term, key: string, profile: string) {
    exists i :: 0 <= i < |t.expressions| && t.expressions[i] == ProfileRequirement(key, profile)
  }

  function TermWithProfile(t: Term, key: string, profile: string): Term {
    if Requires(t, key, profile) then t else t.(expressions := t.expressions + [ProfileRequirement(key, profile)])
  }

  function TermsWithProfile(terms: seq<Term>, key: string, profile: string): (r: seq<Term>)
    ensures |r| == |terms| && forall i :: 0 <= i < |terms| ==> r[i] == TermWithProfile(terms[i], key, profile)
  {
    seq(|terms|, i requires 0 <= i < |terms| => TermWithProfile(terms[i], key, profile))
  }

  function WithProfile(s: Selector, key: string, profile: string): Selector {
    if s.None? || s.value == [] then Some([Term([ProfileRequirement(key, profile)], [])])
    else Some(TermsWithProfile(s.value, key, profile))
  }

  method HasRequirement(t: Term, key: string, profile: string) returns (r: bool)
    ensures r == Requires(t, key, profile)
  {
    for i := 0 to |t.expressions|
      invariant forall j :: 0 <= j < i ==> t.expressions[j] != ProfileRequirement(key, profile)
    {
      var e := t.expressions[i];
      if e.key == key && e.operator == In && |e.values| == 1 && e.values[0] == profile {
        assert e.values == [profile];
        return true;
      }
    }
    r := false;
  }

  // ---- what it does to the meaning ---------------------------------------------------------------

  /** Terms that admit nothing before and every node of the profile after. */
  predicate Widens(s: Selector) {
    s.Some? && (s.value == [] || exists i :: 0 <= i < |s.value| && s.value[i].Empty())
  }

  lemma TermMeaning(less: Less, t: Term, key: string, profile: string, n: HostNode)
    ensures TermMatches(less, TermWithProfile(t, key, profile), n) <==> OfProfile(n, key, profile) && (TermMatches(less, t, n) || t.Empty())
  {
    var required := ProfileRequirement(key, profile);
    assert Holds(less, required, n.labels) <==> OfProfile(n, key, profile);
    if Requires(t, key, profile) {
      var i :| 0 <= i < |t.expressions| && t.expressions[i] == required;
    } else {
      var after := TermWithProfile(t, key, profile);
      assert after.expressions[|t.expressions|] == required;
      assert forall i :: 0 <= i < |t.expressions| ==> after.expressions[i] == t.expressions[i];
    }
  }

  /** The exact meaning: after the rewriting a node is admitted if and only if it is of the profile and either was admitted
      before or the selector had an empty term or no terms. */
  lemma MeaningAfter(less: Less, s: Selector, key: string, profile: string, n: HostNode)
    ensures Admits(less, WithProfile(s, key, profile), n) <==> OfProfile(n, key, profile) && (Admits(less, s, n) || Widens(s))
  {
    if s.None? || s.value == [] {
      var t := Term([ProfileRequirement(key, profile)], []);
      assert WithProfile(s, key, profile).value[0] == t;
      TermMeaning(less, Term([], []), key, profile, n);
      assert TermWithProfile(Term([], []), key, profile) == t;
    } else {
      var after := WithProfile(s, key, profile);
      forall i | 0 <= i < |s.value|
        ensures TermMatches(less, after.value[i], n) <==> OfProfile(n, key, profile) && (TermMatches(less, s.value[i], n) || s.value[i].Empty())
      {
        TermMeaning(less, s.value[i], key, profile, n);
      }
    }
  }

  /** A rewritten Pod stays on its profile, and where no term is empty it keeps exactly its former nodes of the profile. */
  lemma ProfileIsEnforced(less: Less, s: Selector, key: string, profile: string, n: HostNode)
    ensures Admits(less, WithProfile(s, key, profile), n) ==> OfProfile(n, key, profile)
    ensures !Widens(s) ==> (Admits(less, WithProfile(s, key, profile), n) <==> Admits(less, s, n) && OfProfile(n, key, profile))
  {
    MeaningAfter(less, s, key, profile, n);
  }

  /** The rewriting is an intersection exactly when nothing widens or every node of the profile was admitted anyway. */
  lemma IntersectionIff(less: Less, s: Selector, key: string, profile: string)
    ensures
      (forall n :: Admits(less, WithProfile(s, key, profile), n) <==> Admits(less, s, n) && OfProfile(n, key, profile))
      <==> (!Widens(s) || forall n :: OfProfile(n, key, profile) ==> Admits(less, s, n))
  {
    forall n ensures Admits(less, WithProfile(s, key, profile), n) <==> OfProfile(n, key, profile) && (Admits(less, s, n) || Widens(s)) {
      MeaningAfter(less, s, key, profile, n);
    }
  }

  /** An empty term does widen: it admitted no node and then admits every node of the profile. */
  lemma EmptyTermWidens(less: Less, key: string, profile: string)
    ensures var s := Some([Term([], [])]); var n := HostNode(map[key := profile], map[]);
      !Admits(less, s, n) && Admits(less, WithProfile(s, key, profile), n)
  {
    MeaningAfter(less, Some([Term([], [])]), key, profile, HostNode(map[key := profile], map[]));
    assert Some([Term([], [])]).value[0].Empty();
  }

  /** Applied twice it is applied once. */
  lemma WithProfileTwice(s: Selector, key: string, profile: string)
    ensures WithProfile(WithProfile(s, key, profile), key, profile) == WithProfile(s, key, profile)
  {
    var after := WithProfile(s, key, profile);
    forall i | 0 <= i < |after.value| ensures TermWithProfile(after.value[i], key, profile) == after.value[i] {
      RequiredAfter(if s.None? || s.value == [] then Term([], []) else s.value[i], key, profile);
      assert Term([], []).(expressions := [] + [ProfileRequirement(key, profile)]) == Term([ProfileRequirement(key, profile)], []);
    }
    assert WithProfile(after, key, profile).value == after.value;
  }

  lemma RequiredAfter(t: Term, key: string, profile: string)
    ensures Requires(TermWithProfile(t, key, profile), key, profile)
  {
    if !Requires(t, key, profile) {
      assert TermWithProfile(t, key, profile).expressions[|t.expressions|] == ProfileRequirement(key, profile);
    }
  }
}
