/** Admission of Pods that K3k reflects to the Host: what is refused, and how an admitted Pod is rewritten in place
    (internal/admission/host_workload.go, internal/admission/host_webhook.go:44-106). */
module HostAdmission {
  import opened Api
  import opened Affinity
  import Sums

  // ---- Pods --------------------------------------------------------------------------------------

  /** The labels and annotations that are read, "" where absent. */
  datatype Meta = Meta(
    namespace: string, clusterUid: string, k3kCluster: string, k3kAgent: string, resourceNamespace: string,
    cluster: string, role: string, kind: string)

  datatype Toleration = Toleration(key: string, operator: string, effect: string, seconds: Option<int>)

  /** What a Pod asks of its Host besides resources and affinity; `hostPaths` says of each volume whether it is one. */
  datatype Access = Access(
    network: bool, pid: bool, ipc: bool, users: Option<bool>, nodeName: string, nodeSelector: bool,
    tolerations: seq<Toleration>, hostPaths: seq<bool>)

  datatype Preferred = Preferred(weight: int, preference: Term)

  datatype NodeAffinity = NodeAffinity(required: Selector, preferred: seq<Preferred>)

  datatype PodAffinity = PodAffinity(together: bool, apart: bool, node: Option<NodeAffinity>)

  datatype Container = Container(requests: ResourceList, limits: ResourceList, privileged: bool, capabilities: seq<string>, hostPorts: seq<int>)

  datatype Workload = Workload(
    meta: Meta, access: Access, requests: ResourceList, limits: ResourceList,
    affinity: Option<PodAffinity>, initContainers: seq<Container>, containers: seq<Container>)

  datatype Policy = Policy(
    namespace: string, uid: string, profileKey: string, profile: string, storageNodes: seq<string>,
    devices: seq<string>, k3kCluster: string, reflectedSystem: ResourceList)

  const HOSTNAME := "kubernetes.io/hostname"
  const CHILD_SYSTEM := "kube-system"

  datatype Violation =
    | WrongNamespace | WrongUid | WrongCluster | HostAccess | PhysicalPlacement | PodAffinityForbidden | ForeignPreference
    | ProfileConflict | ForeignStorage | ForeignAffinity | ForeignToleration | HostPathForbidden | Privileged | AddedCapability
    | HostPort | DeviceRefused(resource: string)

  // ---- what is allowed ---------------------------------------------------------------------------

  predicate IsReflected(m: Meta, p: Policy) {
    p.k3kCluster != "" && m.k3kCluster != "" && m.resourceNamespace != ""
  }

  predicate IsInfrastructure(m: Meta, p: Policy) {
    p.k3kCluster != "" && m.cluster == p.k3kCluster && (m.role == "server" || m.kind == "agent")
  }

  predicate IsReflectedSystem(m: Meta, p: Policy) {
    p.k3kCluster != "" && m.k3kCluster == p.k3kCluster && m.resourceNamespace == CHILD_SYSTEM
  }

  predicate MetaOk(m: Meta, p: Policy) {
    m.namespace == p.namespace && (m.clusterUid == p.uid || IsReflected(m, p)) && (IsReflected(m, p) ==> m.k3kCluster == p.k3kCluster)
  }

  predicate TolerationOk(t: Toleration) {
    t.operator == "Exists" && t.effect == "NoExecute" && t.seconds == Some(300)
    && (t.key == "node.kubernetes.io/not-ready" || t.key == "node.kubernetes.io/unreachable")
  }

  predicate AccessOk(a: Access) {
    && !a.network && !a.pid && !a.ipc && a.users != Some(false) && a.nodeName == "" && !a.nodeSelector
    && (forall i :: 0 <= i < |a.tolerations| ==> TolerationOk(a.tolerations[i]))
    && (forall i :: 0 <= i < |a.hostPaths| ==> !a.hostPaths[i])
  }

  predicate StorageOk(r: Requirement, nodes: seq<string>) {
    r.operator == In && r.values != [] && nodes != [] && forall v :: v in r.values ==> v in nodes
  }

  /** A requirement names the profile, or a node that holds the Pod's storage, or is refused. */
  predicate RequirementOk(r: Requirement, p: Policy) {
    if r.key == p.profileKey then r == ProfileRequirement(p.profileKey, p.profile)
    else r.key == HOSTNAME && StorageOk(r, p.storageNodes)
  }

  predicate TermOk(t: Term, p: Policy) {
    forall i :: 0 <= i < |t.expressions| ==> RequirementOk(t.expressions[i], p)
  }

  predicate PreferenceOk(q: Preferred, m: Meta) {
    m.k3kAgent != "" && q.weight == 100 && q.preference == Term([Requirement(HOSTNAME, In, [m.k3kAgent])], [])
  }

  predicate TermsOk(terms: seq<Term>, p: Policy) {
    forall i :: 0 <= i < |terms| ==> TermOk(terms[i], p)
  }

  predicate NodeAffinityOk(n: NodeAffinity, m: Meta, p: Policy) {
    && (forall i :: 0 <= i < |n.preferred| ==> PreferenceOk(n.preferred[i], m))
    && (n.required.Some? ==> TermsOk(n.required.value, p))
  }

  predicate AffinityOk(a: Option<PodAffinity>, m: Meta, p: Policy) {
    a.Some? ==> !a.value.together && !a.value.apart && (a.value.node.Some? ==> NodeAffinityOk(a.value.node.value, m, p))
  }

  /** Quantities are in milli-units. */
  predicate DeviceOk(c: Container, p: Policy, name: string) {
    '/' in name && (name in c.requests || name in c.limits) ==>
      && (p.devices != [] ==> name in p.devices)
      && name in c.requests && name in c.limits && c.requests[name] == c.limits[name]
      && c.requests[name] > 0 && c.requests[name] % 1000 == 0
  }

  ghost predicate DevicesOk(c: Container, p: Policy) {
    forall name :: DeviceOk(c, p, name)
  }

  ghost predicate ContainerOk(c: Container, p: Policy) {
    !c.privileged && c.capabilities == [] && (forall i :: 0 <= i < |c.hostPorts| ==> c.hostPorts[i] == 0) && DevicesOk(c, p)
  }

  ghost predicate ContainersOk(cs: seq<Container>, p: Policy) {
    forall i :: 0 <= i < |cs| ==> ContainerOk(cs[i], p)
  }

  ghost predicate Admissible(pod: Workload, p: Policy) {
    && MetaOk(pod.meta, p) && AccessOk(pod.access) && AffinityOk(pod.affinity, pod.meta, p)
    && ContainersOk(pod.initContainers + pod.containers, p)
  }

  // ---- the validators ----------------------------------------------------------------------------

  method AllowedStorageNodeValues(r: Requirement, nodes: seq<string>) returns (ok: bool)
    ensures ok == StorageOk(r, nodes)
  {
    if r.operator != In || r.values == [] || nodes == [] {
      return false;
    }
    var approved: set<string> := {};
    for i := 0 to |nodes|
      invariant forall v :: v in approved <==> v in nodes[..i]
    {
      approved := approved + {nodes[i]};
    }
    assert nodes[..|nodes|] == nodes;
    for i := 0 to |r.values|
      invariant forall j :: 0 <= j < i ==> r.values[j] in nodes
    {
      if r.values[i] !in approved {
        return false;
      }
    }
    ok := true;
  }

  method ValidateTerm(t: Term, p: Policy) returns (r: seq<Violation>)
    ensures r == [] <==> TermOk(t, p)
  {
    r := [];
    for i := 0 to |t.expressions|
      invariant r == [] <==> forall j :: 0 <= j < i ==> RequirementOk(t.expressions[j], p)
    {
      var e := t.expressions[i];
      if e.key == p.profileKey {
        if e.operator != In || |e.values| != 1 || e.values[0] != p.profile {
          r := r + [ProfileConflict];
        } else {
          assert e.values == [p.profile];
        }
      } else if e.key == HOSTNAME {
        var allowed := AllowedStorageNodeValues(e, p.storageNodes);
        if !allowed {
          r := r + [ForeignStorage];
        }
      } else {
        r := r + [ForeignAffinity];
      }
    }
  }

  method ValidateTerms(terms: seq<Term>, p: Policy) returns (r: seq<Violation>)
    ensures r == [] <==> TermsOk(terms, p)
  {
    r := [];
    for i := 0 to |terms|
      invariant r == [] <==> forall j :: 0 <= j < i ==> TermOk(terms[j], p)
    {
      var found := ValidateTerm(terms[i], p);
      r := r + found;
    }
  }

  method IsK3kGeneratedPreference(q: Preferred, m: Meta) returns (ok: bool)
    ensures ok == PreferenceOk(q, m)
  {
    if m.k3kAgent == "" || q.weight != 100 || q.preference.fields != [] || |q.preference.expressions| != 1 {
      return false;
    }
    var e := q.preference.expressions[0];
    ok := e.key == HOSTNAME && e.operator == In && |e.values| == 1 && e.values[0] == m.k3kAgent;
    if ok {
      assert e.values == [m.k3kAgent];
      assert q.preference.expressions == [Requirement(HOSTNAME, In, [m.k3kAgent])];
    }
  }

  method ValidateAffinity(a: Option<PodAffinity>, m: Meta, p: Policy) returns (r: seq<Violation>)
    ensures r == [] <==> AffinityOk(a, m, p)
  {
    r := [];
    if a.None? {
      return;
    }
    if a.value.together || a.value.apart {
      r := r + [PodAffinityForbidden];
    }
    if a.value.node.None? {
      return;
    }
    var node := a.value.node.value;
    for i := 0 to |node.preferred|
      invariant r == [] <==> !a.value.together && !a.value.apart && forall j :: 0 <= j < i ==> PreferenceOk(node.preferred[j], m)
    {
      var generated := IsK3kGeneratedPreference(node.preferred[i], m);
      if !generated {
        r := r + [ForeignPreference];
      }
    }
    if node.required.Some? {
      var found := ValidateTerms(node.required.value, p);
      r := r + found;
    }
  }

  /** Visits the union of the requested and limited names in any order. */
  method ValidateDeviceResources(c: Container, p: Policy) returns (r: seq<Violation>)
    ensures r == [] <==> DevicesOk(c, p)
  {
    r := [];
    var left := c.requests.Keys + c.limits.Keys;
    while left != {}
      invariant left <= c.requests.Keys + c.limits.Keys
      invariant r == [] <==> forall name :: name !in left ==> DeviceOk(c, p, name)
      decreases |left|
    {
      var name :| name in left;
      left := left - {name};
      ghost var before := r;
      if '/' in name {
        if p.devices != [] && name !in p.devices {
          r := r + [DeviceRefused(name)];
        } else if name !in c.requests || name !in c.limits {
          r := r + [DeviceRefused(name)];
        } else {
          if c.requests[name] != c.limits[name] {
            r := r + [DeviceRefused(name)];
          }
          if c.requests[name] % 1000 != 0 || c.requests[name] <= 0 {
            r := r + [DeviceRefused(name)];
          }
        }
      }
      assert r == [] <==> before == [] && DeviceOk(c, p, name);
    }
  }

  method ValidateContainer(c: Container, p: Policy) returns (r: seq<Violation>)
    ensures r == [] <==> ContainerOk(c, p)
  {
    r := [];
    if c.privileged {
      r := r + [Privileged];
    }
    if |c.capabilities| > 0 {
      r := r + [AddedCapability];
    }
    for i := 0 to |c.hostPorts|
      invariant r == [] <==> !c.privileged && c.capabilities == [] && forall j :: 0 <= j < i ==> c.hostPorts[j] == 0
    {
      if c.hostPorts[i] != 0 {
        r := r + [HostPort];
      }
    }
    var devices := ValidateDeviceResources(c, p);
    r := r + devices;
  }

  method ValidateContainers(cs: seq<Container>, p: Policy) returns (r: seq<Violation>)
    ensures r == [] <==> ContainersOk(cs, p)
  {
    r := [];
    for i := 0 to |cs|
      invariant r == [] <==> forall j :: 0 <= j < i ==> ContainerOk(cs[j], p)
    {
      var found := ValidateContainer(cs[i], p);
      r := r + found;
    }
  }

  method ValidateAccess(a: Access) returns (r: seq<Violation>)
    ensures r == [] <==> AccessOk(a)
  {
    r := [];
    if a.network || a.pid || a.ipc || a.users == Some(false) {
      r := r + [HostAccess];
    }
    if a.nodeName != "" || a.nodeSelector {
      r := r + [PhysicalPlacement];
    }
    ghost var base := r;
    for i := 0 to |a.tolerations|
      invariant r == [] <==> base == [] && forall j :: 0 <= j < i ==> TolerationOk(a.tolerations[j])
    {
      if !TolerationOk(a.tolerations[i]) {
        r := r + [ForeignToleration];
      }
    }
    ghost var tolerated := r;
    for i := 0 to |a.hostPaths|
      invariant r == [] <==> tolerated == [] && forall j :: 0 <= j < i ==> !a.hostPaths[j]
    {
      if a.hostPaths[i] {
        r := r + [HostPathForbidden];
      }
    }
  }

  // ---- the rewritings, as functions --------------------------------------------------------------

  function NodeAffinityOf(a: Option<PodAffinity>): NodeAffinity {
    if a.Some? && a.value.node.Some? then a.value.node.value else NodeAffinity(None, [])
  }

  /** addProfileAffinity: missing layers are created, then the required terms are tied to the profile. */
  function TiedAffinity(a: Option<PodAffinity>, p: Policy): Option<PodAffinity> {
    var base := if a.Some? then a.value else PodAffinity(false, false, None);
    var node := NodeAffinityOf(a);
    Some(base.(node := Some(node.(required := WithProfile(node.required, p.profileKey, p.profile)))))
  }

  function Tied(pod: Workload, p: Policy): Workload {
    pod.(affinity := TiedAffinity(pod.affinity, p))
  }

  /** A reserved resource gets what is missing of request and limit, bounded by what is declared. */
  function ReserveName(c: Container, name: string, reservation: ResourceList): Container {
    if name !in reservation || (name in c.requests && name in c.limits) then c
    else
      var q := reservation[name];
      if name !in c.requests && name !in c.limits then c.(requests := c.requests[name := q], limits := c.limits[name := q])
      else if name !in c.requests then c.(requests := c.requests[name := if q > c.limits[name] then c.limits[name] else q])
      else c.(limits := c.limits[name := if q < c.requests[name] then c.requests[name] else q])
  }

  function ReserveContainer(c: Container, reservation: ResourceList): Container {
    ReserveName(ReserveName(c, CPU, reservation), MEMORY, reservation)
  }

  predicate TakesOver(c: Container) {
    (c.requests == map[] && c.limits == map[]) || (c.requests == REFLECTED_SYSTEM_RESERVATION && c.limits == REFLECTED_SYSTEM_RESERVATION)
  }

  /** Native K3k containers that declare nothing, or just the LimitRange defaults, take the Pod's own amounts. */
  function InheritContainer(c: Container, requests: ResourceList, limits: ResourceList): Container {
    if TakesOver(c) then c.(requests := requests, limits := limits) else c
  }

  function Each(cs: seq<Container>, f: Container -> Container): (r: seq<Container>)
    ensures |r| == |cs| && forall i :: 0 <= i < |cs| ==> r[i] == f(cs[i])
  {
    seq(|cs|, i requires 0 <= i < |cs| => f(cs[i]))
  }

  function OnContainers(pod: Workload, f: Container -> Container): Workload {
    pod.(initContainers := Each(pod.initContainers, f), containers := Each(pod.containers, f))
  }

  predicate ReservesFor(m: Meta, reservation: ResourceList) {
    m.resourceNamespace == CHILD_SYSTEM && m.k3kCluster != "" && reservation != map[]
  }

  function Reserved(pod: Workload, reservation: ResourceList): Workload {
    if ReservesFor(pod.meta, reservation) then OnContainers(pod, (c: Container) => ReserveContainer(c, reservation)) else pod
  }

  function Inherited(pod: Workload): Workload {
    if pod.requests == map[] || pod.limits == map[] then pod
    else OnContainers(pod, (c: Container) => InheritContainer(c, pod.requests, pod.limits))
  }

  datatype Verdict = Denied | Allowed | Patched

  /** Whether MutateK3kInfraPodResources reports a change: some container takes the Pod's amounts. */
  predicate Inherits(pod: Workload) {
    pod.requests != map[] && pod.limits != map[]
    && ((exists i :: 0 <= i < |pod.initContainers| && TakesOver(pod.initContainers[i]))
        || exists i :: 0 <= i < |pod.containers| && TakesOver(pod.containers[i]))
  }

  ghost function VerdictOn(pod: Workload, p: Policy, storage: Option<seq<string>>): Verdict {
    if p.profileKey == "" || p.profile == "" then Denied
    else if IsInfrastructure(pod.meta, p) then (if Inherits(pod) then Patched else Allowed)
    else if IsReflectedSystem(pod.meta, p) then Patched
    else if storage.Some? && Admissible(pod, p.(storageNodes := storage.value)) then Patched
    else Denied
  }

  function Rewritten(pod: Workload, p: Policy): Workload {
    if IsInfrastructure(pod.meta, p) then Inherited(pod)
    else if IsReflectedSystem(pod.meta, p) then Tied(Reserved(pod, p.reflectedSystem), p)
    else Tied(pod, p)
  }

  /** Nothing declared is lost. */
  predicate Extends(c: Container, r: Container) {
    c.requests.Keys <= r.requests.Keys && c.limits.Keys <= r.limits.Keys
  }

  // ---- the Pod that is rewritten in place --------------------------------------------------------

  lemma SubmapOfSameSize(left: ResourceList, right: ResourceList)
    requires |left| == |right| && forall k :: k in right ==> k in left && left[k] == right[k]
    ensures left == right
  {
    assert right.Keys <= left.Keys;
    Sums.SubsetOfSameSize(right.Keys, left.Keys);
  }

  /** Compares sizes and then every entry of the right side, in any order. */
  method ResourcesEqual(left: ResourceList, right: ResourceList) returns (r: bool)
    ensures r == (left == right)
  {
    if |left| != |right| {
      return false;
    }
    var names := right.Keys;
    while names != {}
      invariant names <= right.Keys
      invariant forall k :: k in right && k !in names ==> k in left && left[k] == right[k]
      decreases |names|
    {
      var name :| name in names;
      if name !in left || left[name] != right[name] {
        return false;
      }
      names := names - {name};
    }
    SubmapOfSameSize(left, right);
    r := true;
  }

  class HostPod {
    const meta: Meta
    const access: Access
    const requests: ResourceList
    const limits: ResourceList
    var affinity: Option<PodAffinity>
    var initContainers: seq<Container>
    var containers: seq<Container>

    constructor (pod: Workload)
      ensures Value() == pod
    {
      meta := pod.meta;
      access := pod.access;
      requests := pod.requests;
      limits := pod.limits;
      affinity := pod.affinity;
      initContainers := pod.initContainers;
      containers := pod.containers;
    }

    function Value(): Workload
      reads this
    {
      Workload(meta, access, requests, limits, affinity, initContainers, containers)
    }

    method Validate(p: Policy) returns (r: seq<Violation>)
      ensures r == [] <==> Admissible(Value(), p)
    {
      r := [];
      if meta.namespace != p.namespace {
        r := r + [WrongNamespace];
      }
      if meta.clusterUid != p.uid && !IsReflected(meta, p) {
        r := r + [WrongUid];
      }
      if IsReflected(meta, p) && meta.k3kCluster != p.k3kCluster {
        r := r + [WrongCluster];
      }
      assert r == [] <==> MetaOk(meta, p);
      var inAccess := ValidateAccess(access);
      var inAffinity := ValidateAffinity(affinity, meta, p);
      var inContainers := ValidateContainers(initContainers + containers, p);
      r := r + inAffinity + inAccess + inContainers;
    }

    /** Walks the required terms and appends the profile where it is missing. */
    method AddProfileAffinity(p: Policy) returns (changed: bool)
      modifies this`affinity
      ensures Value() == Tied(old(Value()), p)
      ensures changed <==> Value() != old(Value())
    {
      ghost var was := affinity;
      if affinity.None? {
        affinity := Some(PodAffinity(false, false, None));
      }
      if affinity.value.node.None? {
        affinity := Some(affinity.value.(node := Some(NodeAffinity(None, []))));
      }
      var node := affinity.value.node.value;
      assert node == NodeAffinityOf(was);
      if node.required.None? || node.required.value == [] {
        affinity := Some(affinity.value.(node := Some(node.(required := Some([Term([ProfileRequirement(p.profileKey, p.profile)], [])])))));
        return true;
      }
      var terms := node.required.value;
      ghost var start, layered := terms, affinity;
      changed := false;
      for i := 0 to |terms|
        invariant |terms| == |start| && affinity == layered
        invariant forall j :: 0 <= j < |terms| ==> terms[j] == if j < i then TermWithProfile(start[j], p.profileKey, p.profile) else start[j]
        invariant changed <==> exists j :: 0 <= j < i && terms[j] != start[j]
      {
        var has := HasRequirement(terms[i], p.profileKey, p.profile);
        if !has {
          var t := terms[i].(expressions := terms[i].expressions + [ProfileRequirement(p.profileKey, p.profile)]);
          assert |t.expressions| == |terms[i].expressions| + 1;
          terms := terms[i := t];
          changed := true;
        }
      }
      assert terms == TermsWithProfile(start, p.profileKey, p.profile);
      assert !changed ==> terms == start;
      affinity := Some(affinity.value.(node := Some(node.(required := Some(terms)))));
    }

    method MutateReflectedPod(p: Policy) returns (r: Result<bool>)
      modifies this`affinity
      ensures r.Ok? <==> Admissible(old(Value()), p)
      ensures Value() == if r.Ok? then Tied(old(Value()), p) else old(Value())
      ensures r.Ok? ==> (r.value <==> Value() != old(Value()))
    {
      var violations := Validate(p);
      if violations != [] {
        return Err("pod rejected");
      }
      var changed := AddProfileAffinity(p);
      r := Ok(changed);
    }

    /** The closure that MutateReflectedSystemPod runs on each container. */
    static method Reserve(c: Container, reservation: ResourceList) returns (r: Container, changed: bool)
      ensures r == ReserveContainer(c, reservation)
      ensures changed <==> r != c
    {
      r, changed := c, false;
      var names := [CPU, MEMORY];
      for i := 0 to 2
        invariant r == (if i == 0 then c else if i == 1 then ReserveName(c, CPU, reservation) else ReserveContainer(c, reservation))
        invariant Extends(c, r) && (changed <==> r != c)
      {
        var name := names[i];
        if name in reservation {
          var q := reservation[name];
          if name !in r.requests && name !in r.limits {
            r := r.(requests := r.requests[name := q], limits := r.limits[name := q]);
            changed := true;
          } else if name !in r.requests {
            r := r.(requests := r.requests[name := if q > r.limits[name] then r.limits[name] else q]);
            changed := true;
          } else if name !in r.limits {
            r := r.(limits := r.limits[name := if q < r.requests[name] then r.requests[name] else q]);
            changed := true;
          }
        }
      }
    }

    method MutateReflectedSystemPod(reservation: ResourceList) returns (changed: bool)
      modifies this`initContainers, this`containers
      ensures Value() == Reserved(old(Value()), reservation)
      ensures changed <==> Value() != old(Value())
    {
      changed := false;
      if meta.resourceNamespace != CHILD_SYSTEM || meta.k3kCluster == "" || reservation == map[] {
        return;
      }
      ghost var f := (c: Container) => ReserveContainer(c, reservation);
      for i := 0 to |initContainers|
        invariant |initContainers| == |old(initContainers)| && containers == old(containers)
        invariant forall j :: 0 <= j < |initContainers| ==> initContainers[j] == if j < i then f(old(initContainers)[j]) else old(initContainers)[j]
        invariant changed <==> exists j :: 0 <= j < i && initContainers[j] != old(initContainers)[j]
      {
        var c, did := Reserve(initContainers[i], reservation);
        initContainers := initContainers[i := c];
        changed := changed || did;
      }
      assert initContainers == Each(old(initContainers), f);
      assert changed <==> initContainers != old(initContainers);
      for i := 0 to |containers|
        invariant |containers| == |old(containers)| && initContainers == Each(old(initContainers), f)
        invariant forall j :: 0 <= j < |containers| ==> containers[j] == if j < i then f(old(containers)[j]) else old(containers)[j]
        invariant changed <==> initContainers != old(initContainers) || exists j :: 0 <= j < i && containers[j] != old(containers)[j]
      {
        var c, did := Reserve(containers[i], reservation);
        containers := containers[i := c];
        changed := changed || did;
      }
      assert containers == Each(old(containers), f);
    }

    static method Inherit(c: Container, requests: ResourceList, limits: ResourceList) returns (r: Container, changed: bool)
      ensures r == InheritContainer(c, requests, limits)
      ensures changed == TakesOver(c)
    {
      if |c.requests| == 0 && |c.limits| == 0 {
        return c.(requests := requests, limits := limits), true;
      }
      var sameRequests := ResourcesEqual(c.requests, REFLECTED_SYSTEM_RESERVATION);
      var sameLimits := ResourcesEqual(c.limits, REFLECTED_SYSTEM_RESERVATION);
      if sameRequests && sameLimits {
        return c.(requests := requests, limits := limits), true;
      }
      return c, false;
    }

    method MutateK3kInfraPodResources() returns (changed: bool)
      modifies this`initContainers, this`containers
      ensures Value() == Inherited(old(Value()))
      ensures changed == Inherits(old(Value()))
      ensures !changed ==> Value() == old(Value())
    {
      changed := false;
      if |requests| == 0 || |limits| == 0 {
        return;
      }
      ghost var f := (c: Container) => InheritContainer(c, requests, limits);
      for i := 0 to |initContainers|
        invariant |initContainers| == |old(initContainers)| && containers == old(containers)
        invariant forall j :: 0 <= j < |initContainers| ==> initContainers[j] == if j < i then f(old(initContainers)[j]) else old(initContainers)[j]
        invariant changed == exists j :: 0 <= j < i && TakesOver(old(initContainers)[j])
      {
        var c, did := Inherit(initContainers[i], requests, limits);
        initContainers := initContainers[i := c];
        changed := changed || did;
      }
      assert initContainers == Each(old(initContainers), f);
      ghost var early := changed;
      for i := 0 to |containers|
        invariant |containers| == |old(containers)| && initContainers == Each(old(initContainers), f)
        invariant forall j :: 0 <= j < |containers| ==> containers[j] == if j < i then f(old(containers)[j]) else old(containers)[j]
        invariant changed == (early || exists j :: 0 <= j < i && TakesOver(old(containers)[j]))
      {
        var c, did := Inherit(containers[i], requests, limits);
        containers := containers[i := c];
        changed := changed || did;
      }
      assert containers == Each(old(containers), f);
      if !changed {
        assert Each(old(initContainers), f) == old(initContainers) && Each(old(containers), f) == old(containers);
      }
    }

    method MutateReflectedSystemPodForPolicy(p: Policy) returns (r: Result<bool>)
      modifies this`initContainers, this`containers, this`affinity
      ensures r.Ok? <==> IsReflectedSystem(meta, p)
      ensures Value() == if r.Ok? then Tied(Reserved(old(Value()), p.reflectedSystem), p) else old(Value())
      ensures r.Ok? ==> (r.value <==> Value() != old(Value()))
    {
      if !IsReflectedSystem(meta, p) {
        return Err("reflected system Pod does not match resolved K3k cluster");
      }
      var changed := MutateReflectedSystemPod(p.reflectedSystem);
      var tied := AddProfileAffinity(p);
      r := Ok(changed || tied);
    }

    /** The webhook's decision; `storage` are the nodes that hold the Pod's volumes, or None where they cannot be told. */
    method Handle(p: Policy, storage: Option<seq<string>>) returns (verdict: Verdict)
      modifies this`initContainers, this`containers, this`affinity
      ensures verdict == VerdictOn(old(Value()), p, storage)
      ensures verdict.Patched? ==> Value() == Rewritten(old(Value()), p)
      ensures verdict.Allowed? ==> Value() == old(Value())
    {
      if p.profileKey == "" || p.profile == "" {
        return Denied;
      }
      if IsInfrastructure(meta, p) {
        var inherited := MutateK3kInfraPodResources();
        return if inherited then Patched else Allowed;
      }
      if IsReflectedSystem(meta, p) {
        var result := MutateReflectedSystemPodForPolicy(p);
        return if result.Ok? then Patched else Denied;
      }
      if storage.None? {
        return Denied;
      }
      var policy := p.(storageNodes := storage.value);
      var violations := Validate(policy);
      if violations != [] {
        return Denied;
      }
      var mutated := MutateReflectedPod(policy);
      return if mutated.Ok? then Patched else Denied;
    }
  }
}
