/** What rewriting a Pod keeps: reinvocation changes nothing more, an admitted Pod stays admitted, and reserved resources
    end up declared and consistent. */
module AdmissionStability {
  import opened Api
  import opened Affinity
  import opened HostAdmission

  // ---- the profile affinity ----------------------------------------------------------------------

  lemma TiedTwice(pod: Workload, p: Policy)
    ensures Tied(Tied(pod, p), p) == Tied(pod, p)
  {
    WithProfileTwice(NodeAffinityOf(pod.affinity).required, p.profileKey, p.profile);
  }

  /** A term as it was, or with the profile appended. */
  predicate TermTied(t: Term, r: Term, p: Policy) {
    r == t || r == Term(t.expressions + [Requirement(p.profileKey, In, [p.profile])], t.fields)
  }

  /** Tying touches the required node terms and nothing else: the preferences, the Pod affinities and the rest of the Pod stay,
      and each term stays or gets the profile. */
  lemma TiedKeepsTheRest(pod: Workload, p: Policy)
    ensures var r := Tied(pod, p);
      && r == pod.(affinity := r.affinity) && r.affinity.Some? && r.affinity.value.node.Some?
      && r.affinity.value.node.value.preferred == NodeAffinityOf(pod.affinity).preferred
      && (pod.affinity.Some? ==> r.affinity.value.together == pod.affinity.value.together && r.affinity.value.apart == pod.affinity.value.apart)
      && (pod.affinity.None? ==> !r.affinity.value.together && !r.affinity.value.apart)
      && r.affinity.value.node.value.required.Some?
      && var before, after := NodeAffinityOf(pod.affinity).required, r.affinity.value.node.value.required.value;
      if before.None? || before.value == [] then after == [Term([Requirement(p.profileKey, In, [p.profile])], [])]
      else |after| == |before.value| && forall i :: 0 <= i < |after| ==> TermTied(before.value[i], after[i], p)
  {
  }

  lemma TiedTermsOk(s: Selector, p: Policy)
    requires s.Some? ==> TermsOk(s.value, p)
    ensures TermsOk(WithProfile(s, p.profileKey, p.profile).value, p)
  {
  }

  /** A Pod that validates still validates after it was tied to the profile. */
  lemma TiedStaysAdmissible(pod: Workload, p: Policy)
    requires Admissible(pod, p)
    ensures Admissible(Tied(pod, p), p)
  {
    TiedTermsOk(NodeAffinityOf(pod.affinity).required, p);
  }

  // ---- reflected system Pods ---------------------------------------------------------------------

  predicate Keeps(before: ResourceList, after: ResourceList) {
    forall k :: k in before ==> k in after && after[k] == before[k]
  }

  /** The request does not exceed the limit where both are set. */
  predicate Ordered(c: Container, name: string) {
    name in c.requests && name in c.limits ==> c.requests[name] <= c.limits[name]
  }

  predicate Settled(c: Container, name: string) {
    name in c.requests && name in c.limits && c.requests[name] <= c.limits[name]
  }

  predicate IsReserved(reservation: ResourceList, name: string) {
    name in reservation && (name == CPU || name == MEMORY)
  }

  lemma NamesDiffer()
    ensures CPU != MEMORY
  {
    assert CPU[0] == 'c' && MEMORY[0] == 'm';
  }

  /** One name: nothing else is touched. */
  lemma ReserveOne(c: Container, name: string, reservation: ResourceList)
    ensures var r := ReserveName(c, name, reservation);
      && Keeps(c.requests, r.requests) && Keeps(c.limits, r.limits)
      && (forall k :: k != name ==> (k in r.requests <==> k in c.requests) && (k in r.limits <==> k in c.limits))
      && (name in reservation ==> name in r.requests && name in r.limits && (Settled(r, name) <==> Ordered(c, name)))
      && (name !in reservation ==> r == c)
  {
  }

  lemma StaysOrdered(before: Container, after: Container, k: string)
    requires Keeps(before.requests, after.requests) && Keeps(before.limits, after.limits)
    requires (k in after.requests <==> k in before.requests) && (k in after.limits <==> k in before.limits)
    ensures (Settled(after, k) <==> Settled(before, k)) && (Ordered(after, k) <==> Ordered(before, k))
  {
  }

  /** What a container declared stays as it is, only reserved names are added, and a reserved name ends with both amounts
      set and in order exactly when the declared ones were in order. */
  lemma ReservationIsConsistent(c: Container, reservation: ResourceList)
    ensures var r := ReserveContainer(c, reservation);
      && Keeps(c.requests, r.requests) && Keeps(c.limits, r.limits)
      && (forall k :: (k in r.requests && k !in c.requests) || (k in r.limits && k !in c.limits) ==> IsReserved(reservation, k))
      && (forall k :: IsReserved(reservation, k) ==> (Settled(r, k) <==> Ordered(c, k)))
  {
    NamesDiffer();
    var mid := ReserveName(c, CPU, reservation);
    var r := ReserveName(mid, MEMORY, reservation);
    ReserveOne(c, CPU, reservation);
    ReserveOne(mid, MEMORY, reservation);
    StaysOrdered(c, mid, MEMORY);
    StaysOrdered(mid, r, CPU);
  }

  /** What a container ends with for one resource: both amounts as declared; or both reserved; or, where only one was declared,
      the other reserved but the request kept within the limit. */
  predicate Filled(c: Container, r: Container, name: string, q: int) {
    && name in r.requests && name in r.limits
    && (name in c.requests ==> r.requests[name] == c.requests[name]) && (name in c.limits ==> r.limits[name] == c.limits[name])
    && (name !in c.requests && name !in c.limits ==> r.requests[name] == q && r.limits[name] == q)
    && (name !in c.requests && name in c.limits ==> r.requests[name] == (if c.limits[name] < q then c.limits[name] else q))
    && (name in c.requests && name !in c.limits ==> r.limits[name] == (if c.requests[name] > q then c.requests[name] else q))
  }

  lemma OneIsFilled(c: Container, name: string, reservation: ResourceList)
    requires name in reservation
    ensures Filled(c, ReserveName(c, name, reservation), name, reservation[name])
  {
  }

  /** CPU and memory are filled in where they are reserved, and the rest of the container stays. */
  predicate FilledIn(c: Container, r: Container, reservation: ResourceList) {
    && r == c.(requests := r.requests, limits := r.limits)
    && ("cpu" in reservation ==> Filled(c, r, "cpu", reservation["cpu"]))
    && ("memory" in reservation ==> Filled(c, r, "memory", reservation["memory"]))
  }

  lemma ContainerIsFilledIn(c: Container, reservation: ResourceList)
    ensures FilledIn(c, ReserveContainer(c, reservation), reservation)
  {
    NamesDiffer();
    var mid := ReserveName(c, CPU, reservation);
    ReserveOne(c, CPU, reservation);
    ReserveOne(mid, MEMORY, reservation);
    if CPU in reservation {
      OneIsFilled(c, CPU, reservation);
    }
    if MEMORY in reservation {
      OneIsFilled(mid, MEMORY, reservation);
    }
  }

  /** The amounts a reflected system Pod ends with, in every container. */
  lemma ReservedAmounts(pod: Workload, reservation: ResourceList)
    requires pod.meta.resourceNamespace == "kube-system" && pod.meta.k3kCluster != ""
    ensures var r := Reserved(pod, reservation);
      && r == pod.(initContainers := r.initContainers, containers := r.containers)
      && |r.initContainers| == |pod.initContainers| && |r.containers| == |pod.containers|
      && (forall i :: 0 <= i < |r.initContainers| ==> FilledIn(pod.initContainers[i], r.initContainers[i], reservation))
      && (forall i :: 0 <= i < |r.containers| ==> FilledIn(pod.containers[i], r.containers[i], reservation))
  {
    forall c ensures FilledIn(c, ReserveContainer(c, reservation), reservation) {
      ContainerIsFilledIn(c, reservation);
    }
  }

  lemma ReserveTwice(c: Container, reservation: ResourceList)
    ensures ReserveContainer(ReserveContainer(c, reservation), reservation) == ReserveContainer(c, reservation)
  {
    NamesDiffer();
    var mid := ReserveName(c, CPU, reservation);
    ReserveOne(c, CPU, reservation);
    ReserveOne(mid, MEMORY, reservation);
  }

  lemma EachTwice(cs: seq<Container>, f: Container -> Container)
    requires forall c :: f(f(c)) == f(c)
    ensures Each(Each(cs, f), f) == Each(cs, f)
  {
  }

  lemma ReservedTwice(pod: Workload, reservation: ResourceList)
    ensures Reserved(Reserved(pod, reservation), reservation) == Reserved(pod, reservation)
  {
    var f := (c: Container) => ReserveContainer(c, reservation);
    forall c ensures f(f(c)) == f(c) {
      ReserveTwice(c, reservation);
    }
    EachTwice(pod.initContainers, f);
    EachTwice(pod.containers, f);
  }

  // ---- native K3k Pods ---------------------------------------------------------------------------

  lemma InheritTwice(c: Container, requests: ResourceList, limits: ResourceList)
    ensures InheritContainer(InheritContainer(c, requests, limits), requests, limits) == InheritContainer(c, requests, limits)
  {
  }

  /** Nothing is declared, or just the platform's default for requests and limits. */
  predicate LeftOpen(c: Container) {
    || (c.requests == map[] && c.limits == map[])
    || (c.requests == map["cpu" := 100, "memory" := 268435456000] && c.limits == map["cpu" := 100, "memory" := 268435456000])
  }

  /** Such a container of a Pod with both kinds of amounts takes the Pod's requests as requests and its limits as limits; every
      other container, and everything else of every container, stays as it is. */
  predicate Takes(pod: Workload, c: Container, r: Container) {
    r == if pod.requests != map[] && pod.limits != map[] && LeftOpen(c)
         then Container(pod.requests, pod.limits, c.privileged, c.capabilities, c.hostPorts) else c
  }

  lemma InheritedAmounts(pod: Workload)
    ensures var r := Inherited(pod);
      && r == pod.(initContainers := r.initContainers, containers := r.containers)
      && |r.initContainers| == |pod.initContainers| && |r.containers| == |pod.containers|
      && (forall i :: 0 <= i < |r.initContainers| ==> Takes(pod, pod.initContainers[i], r.initContainers[i]))
      && (forall i :: 0 <= i < |r.containers| ==> Takes(pod, pod.containers[i], r.containers[i]))
  {
    assert map["cpu" := 100, "memory" := 268435456000] == REFLECTED_SYSTEM_RESERVATION;
  }

  lemma InheritedTwice(pod: Workload)
    ensures Inherited(Inherited(pod)) == Inherited(pod)
  {
    var f := (c: Container) => InheritContainer(c, pod.requests, pod.limits);
    forall c ensures f(f(c)) == f(c) {
      InheritTwice(c, pod.requests, pod.limits);
    }
    EachTwice(pod.initContainers, f);
    EachTwice(pod.containers, f);
  }

  // ---- the whole webhook -------------------------------------------------------------------------

  /** Stable under reinvocation: what the webhook made of a Pod is not denied the second time, and not changed again. */
  lemma ReinvocationIsStable(pod: Workload, p: Policy, storage: Option<seq<string>>)
    requires VerdictOn(pod, p, storage) == Patched
    ensures VerdictOn(Rewritten(pod, p), p, storage) != Denied
    ensures Rewritten(Rewritten(pod, p), p) == Rewritten(pod, p)
  {
    if IsInfrastructure(pod.meta, p) {
      InheritedTwice(pod);
    } else if IsReflectedSystem(pod.meta, p) {
      var reserved := Reserved(pod, p.reflectedSystem);
      ReservedTwice(pod, p.reflectedSystem);
      TiedTwice(reserved, p);
      TiedKeepsReserved(reserved, p);
    } else {
      var policy := p.(storageNodes := storage.value);
      assert Tied(pod, policy) == Tied(pod, p);
      TiedStaysAdmissible(pod, policy);
      TiedTwice(pod, p);
    }
  }

  lemma TiedKeepsReserved(pod: Workload, p: Policy)
    requires Reserved(pod, p.reflectedSystem) == pod
    ensures Reserved(Tied(pod, p), p.reflectedSystem) == Tied(pod, p)
  {
  }

  /** Where an admitted Pod may run: nodes of the profile only. */
  lemma AdmittedStaysOnProfile(less: Less, pod: Workload, p: Policy, storage: Option<seq<string>>, n: HostNode)
    requires VerdictOn(pod, p, storage) == Patched && !IsInfrastructure(pod.meta, p)
    requires var a := Rewritten(pod, p).affinity; Admits(less, NodeAffinityOf(a).required, n)
    ensures OfProfile(n, p.profileKey, p.profile)
    ensures !Widens(NodeAffinityOf(pod.affinity).required) ==> Admits(less, NodeAffinityOf(pod.affinity).required, n)
  {
    ProfileIsEnforced(less, NodeAffinityOf(pod.affinity).required, p.profileKey, p.profile, n);
  }

  // ---- confinement -------------------------------------------------------------------------------

  /** No reach into the Host: its namespaces, its nodes by name, its paths, or tolerations but the two default ones. */
  predicate NoHostAccess(a: Access) {
    && !a.network && !a.pid && !a.ipc && a.users != Some(false) && a.nodeName == "" && !a.nodeSelector && true !in a.hostPaths
    && forall i :: 0 <= i < |a.tolerations| ==>
      a.tolerations[i] == Toleration("node.kubernetes.io/not-ready", "Exists", "NoExecute", Some(300))
      || a.tolerations[i] == Toleration("node.kubernetes.io/unreachable", "Exists", "NoExecute", Some(300))
  }

  /** Unprivileged, without added capabilities or Host ports, and with every device approved and requested and limited in the
      same positive whole amount. */
  ghost predicate Plain(c: Container, devices: seq<string>) {
    && !c.privileged && c.capabilities == [] && (forall i :: 0 <= i < |c.hostPorts| ==> c.hostPorts[i] == 0)
    && forall name :: '/' in name && (name in c.requests || name in c.limits) ==>
      && name in c.requests && name in c.limits && c.requests[name] == c.limits[name] && c.requests[name] > 0 && c.requests[name] % 1000 == 0
      && (devices == [] || name in devices)
  }

  /** The profile itself, or nodes that hold the Pod's storage. */
  predicate Placed(r: Requirement, p: Policy, storage: seq<string>) {
    if r.key == p.profileKey then r.operator == In && r.values == [p.profile]
    else r.key == "kubernetes.io/hostname" && r.operator == In && r.values != [] && forall v :: v in r.values ==> v in storage
  }

  predicate TermsPlaced(terms: seq<Term>, p: Policy, storage: seq<string>) {
    forall t, i :: 0 <= t < |terms| && 0 <= i < |terms[t].expressions| ==> Placed(terms[t].expressions[i], p, storage)
  }

  /** No Pod affinities, no preference but the one K3k generates for its agent, and no requirement that is not allowed. */
  predicate WellPlaced(a: PodAffinity, agent: string, p: Policy, storage: seq<string>) {
    && !a.together && !a.apart
    && (a.node.Some? ==>
      && (forall q :: q in a.node.value.preferred ==> agent != "" && q == Preferred(100, Term([Requirement("kubernetes.io/hostname", In, [agent])], [])))
      && (a.node.value.required.Some? ==> TermsPlaced(a.node.value.required.value, p, storage)))
  }

  /** In the policy's namespace, owned by its UID or reflected for its cluster, without Host access, well placed, and with plain
      containers. */
  ghost predicate Confined(pod: Workload, p: Policy, storage: seq<string>) {
    && pod.meta.namespace == p.namespace
    && (if p.k3kCluster != "" && pod.meta.k3kCluster != "" && pod.meta.resourceNamespace != "" then pod.meta.k3kCluster == p.k3kCluster
        else pod.meta.clusterUid == p.uid)
    && NoHostAccess(pod.access) && (pod.affinity.Some? ==> WellPlaced(pod.affinity.value, pod.meta.k3kAgent, p, storage))
    && (forall i :: 0 <= i < |pod.initContainers| ==> Plain(pod.initContainers[i], p.devices))
    && (forall i :: 0 <= i < |pod.containers| ==> Plain(pod.containers[i], p.devices))
  }

  lemma PlainIffOk(c: Container, p: Policy)
    ensures ContainerOk(c, p) <==> Plain(c, p.devices)
  {
    if ContainerOk(c, p) {
      forall name | '/' in name && (name in c.requests || name in c.limits)
        ensures name in c.requests && name in c.limits && c.requests[name] == c.limits[name] && c.requests[name] > 0 && c.requests[name] % 1000 == 0
        ensures p.devices == [] || name in p.devices
      {
        assert DeviceOk(c, p, name);
      }
    }
  }

  lemma AllPlainIff(pod: Workload, p: Policy)
    ensures ContainersOk(pod.initContainers + pod.containers, p) <==>
      && (forall i :: 0 <= i < |pod.initContainers| ==> Plain(pod.initContainers[i], p.devices))
      && (forall i :: 0 <= i < |pod.containers| ==> Plain(pod.containers[i], p.devices))
  {
    var all, n := pod.initContainers + pod.containers, |pod.initContainers|;
    forall c ensures ContainerOk(c, p) <==> Plain(c, p.devices) {
      PlainIffOk(c, p);
    }
    if ContainersOk(all, p) {
      forall i | 0 <= i < n ensures Plain(pod.initContainers[i], p.devices) {
        assert all[i] == pod.initContainers[i];
      }
      forall i | 0 <= i < |pod.containers| ensures Plain(pod.containers[i], p.devices) {
        assert all[n + i] == pod.containers[i];
      }
    }
  }

  lemma PlacedIff(r: Requirement, p: Policy)
    ensures RequirementOk(r, p) <==> Placed(r, p, p.storageNodes)
  {
    if r.values != [] && (forall v :: v in r.values ==> v in p.storageNodes) {
      assert r.values[0] in p.storageNodes;
    }
  }

  lemma TermsPlacedIff(terms: seq<Term>, p: Policy)
    ensures TermsOk(terms, p) <==> TermsPlaced(terms, p, p.storageNodes)
  {
    forall r ensures RequirementOk(r, p) <==> Placed(r, p, p.storageNodes) {
      PlacedIff(r, p);
    }
    if TermsPlaced(terms, p, p.storageNodes) {
      forall t | 0 <= t < |terms| ensures TermOk(terms[t], p) {
      }
    }
    if TermsOk(terms, p) {
      forall t, i | 0 <= t < |terms| && 0 <= i < |terms[t].expressions| ensures Placed(terms[t].expressions[i], p, p.storageNodes) {
        assert TermOk(terms[t], p);
      }
    }
  }

  lemma WellPlacedIff(a: PodAffinity, m: Meta, p: Policy)
    ensures AffinityOk(Some(a), m, p) <==> WellPlaced(a, m.k3kAgent, p, p.storageNodes)
  {
    if a.node.Some? {
      var preferred := a.node.value.preferred;
      assert forall i :: 0 <= i < |preferred| ==> preferred[i] in preferred;
      if a.node.value.required.Some? {
        TermsPlacedIff(a.node.value.required.value, p);
      }
    }
  }

  lemma NoHostAccessIff(a: Access)
    ensures AccessOk(a) <==> NoHostAccess(a)
  {
    assert true in a.hostPaths <==> exists i :: 0 <= i < |a.hostPaths| && a.hostPaths[i];
  }

  /** The verdict by kind of Pod, in the policy's and the Pod's own labels. Without a profile everything is denied; K3k's servers
      and agents are patched or allowed; Pods reflected from the child's kube-system are patched; and any other Pod is patched if
      its storage nodes can be told and it is confined, and denied otherwise. */
  lemma VerdictByKind(pod: Workload, p: Policy, storage: Option<seq<string>>)
    ensures var m, verdict := pod.meta, VerdictOn(pod, p, storage);
      if p.profileKey == "" || p.profile == "" then verdict == Denied
      else if p.k3kCluster != "" && m.cluster == p.k3kCluster && (m.role == "server" || m.kind == "agent") then
        verdict == if Rewrites(pod) then Patched else Allowed
      else if p.k3kCluster != "" && m.k3kCluster == p.k3kCluster && m.resourceNamespace == "kube-system" then verdict == Patched
      else verdict == if storage.Some? && Confined(pod, p, storage.value) then Patched else Denied
  {
    if storage.Some? && p.profileKey != "" && p.profile != "" && !IsInfrastructure(pod.meta, p) && !IsReflectedSystem(pod.meta, p) {
      AdmittedIffConfined(pod, p, storage.value);
    }
    assert map["cpu" := 100, "memory" := 268435456000] == REFLECTED_SYSTEM_RESERVATION;
  }

  /** Some container of a Pod with both kinds of amounts is left open. */
  predicate Rewrites(pod: Workload) {
    pod.requests != map[] && pod.limits != map[]
    && ((exists i :: 0 <= i < |pod.initContainers| && LeftOpen(pod.initContainers[i])) || exists i :: 0 <= i < |pod.containers| && LeftOpen(pod.containers[i]))
  }

  /** The webhook lets a Pod that is neither K3k's own nor a reflected system Pod through if and only if it is confined. */
  lemma AdmittedIffConfined(pod: Workload, p: Policy, storage: seq<string>)
    requires p.profileKey != "" && p.profile != "" && !IsInfrastructure(pod.meta, p) && !IsReflectedSystem(pod.meta, p)
    ensures VerdictOn(pod, p, Some(storage)) == Patched <==> Confined(pod, p, storage)
    ensures VerdictOn(pod, p, Some(storage)) != Patched ==> VerdictOn(pod, p, Some(storage)) == Denied
  {
    var policy := p.(storageNodes := storage);
    AllPlainIff(pod, policy);
    NoHostAccessIff(pod.access);
    if pod.affinity.Some? {
      WellPlacedIff(pod.affinity.value, pod.meta, policy);
      assert WellPlaced(pod.affinity.value, pod.meta.k3kAgent, policy, storage) <==> WellPlaced(pod.affinity.value, pod.meta.k3kAgent, p, storage);
    }
  }
}
