/** TopoLVM storage inventory (internal/controller/cell_controller.go, projectStorageInventory). */
module Storage {
  import opened Api
  import opened Sums

  const TOPOLVM := "topolvm.io"
  const CAPACITY_ANNOTATION := "capacity.topolvm.io/"
  const HOSTNAME := "kubernetes.io/hostname"

  datatype Requirement = Requirement(key: string, isIn: bool, values: seq<string>)

  datatype Volume = Volume(bound: bool, className: string, capacity: int, affinity: seq<seq<Requirement>>)

  datatype StorageClass = StorageClass(name: string, provisioner: string, deviceClass: string)

  // ---- what the lists say ------------------------------------------------------------------------

  function HostOfTerm(term: seq<Requirement>): string {
    if term == [] then ""
    else if term[0].key == HOSTNAME && term[0].isIn && |term[0].values| == 1 then term[0].values[0]
    else HostOfTerm(term[1..])
  }

  predicate NamesHost(term: seq<Requirement>) {
    exists i :: 0 <= i < |term| && term[i].key == HOSTNAME && term[i].isIn && |term[i].values| == 1
  }

  /** The host a volume is local to, or "". */
  function HostOf(affinity: seq<seq<Requirement>>): string {
    if affinity == [] then ""
    else if NamesHost(affinity[0]) then HostOfTerm(affinity[0])
    else HostOf(affinity[1..])
  }

  /** The TopoLVM classes and their device classes; a later class of the same name wins. */
  function TopolvmClasses(classes: seq<StorageClass>): map<string, string> {
    if classes == [] then map[]
    else
      var last := classes[|classes| - 1];
      var rest := TopolvmClasses(classes[..|classes| - 1]);
      if last.provisioner == TOPOLVM then rest[last.name := last.deviceClass] else rest
  }

  /** The certified free capacity a node reports for a device class. */
  function NodeFree(node: Node, deviceClass: string): Option<int> {
    var key := CAPACITY_ANNOTATION + if deviceClass != "" then deviceClass else "00default";
    if key in node.annotations && node.annotations[key].Some? && node.annotations[key].value >= 0 then node.annotations[key] else None
  }

  predicate Charges(pv: Volume, class_: string) {
    pv.bound && pv.className != "" && pv.className == class_
  }

  function AllocatedIn(pvs: seq<Volume>, class_: string): int {
    if pvs == [] then 0
    else AllocatedIn(pvs[..|pvs| - 1], class_) + if Charges(pvs[|pvs| - 1], class_) then pvs[|pvs| - 1].capacity else 0
  }

  function AllocatedOn(pvs: seq<Volume>, class_: string, host: string): int {
    if pvs == [] then 0
    else
      var last := pvs[|pvs| - 1];
      AllocatedOn(pvs[..|pvs| - 1], class_, host) +
      if Charges(last, class_) && HostOf(last.affinity) == host then last.capacity else 0
  }

  /** The hosts that hold a charged volume. */
  function VolumeHosts(pvs: seq<Volume>, class_: string): (r: set<string>)
    ensures "" !in r
  {
    if pvs == [] then {}
    else
      var rest, last := VolumeHosts(pvs[..|pvs| - 1], class_), pvs[|pvs| - 1];
      if Charges(last, class_) && HostOf(last.affinity) != "" then rest + {HostOf(last.affinity)} else rest
  }

  predicate Reports(node: Node, eligible: set<string>, deviceClass: string) {
    node.name in eligible && NodeFree(node, deviceClass).Some?
  }

  function Plus(a: Option<int>, b: int): Option<int> {
    Some(b + if a.Some? then a.value else 0)
  }

  function FreeTotal(nodes: seq<Node>, eligible: set<string>, deviceClass: string): Option<int> {
    if nodes == [] then None
    else
      var rest, last := FreeTotal(nodes[..|nodes| - 1], eligible, deviceClass), nodes[|nodes| - 1];
      if Reports(last, eligible, deviceClass) then Plus(rest, NodeFree(last, deviceClass).value) else rest
  }

  function FreeOn(nodes: seq<Node>, eligible: set<string>, deviceClass: string, host: string): Option<int> {
    if nodes == [] then None
    else
      var last := nodes[|nodes| - 1];
      if Reports(last, eligible, deviceClass) && last.name == host then NodeFree(last, deviceClass)
      else FreeOn(nodes[..|nodes| - 1], eligible, deviceClass, host)
  }

  function ReportCount(nodes: seq<Node>, eligible: set<string>, deviceClass: string): nat {
    if nodes == [] then 0
    else ReportCount(nodes[..|nodes| - 1], eligible, deviceClass) + if Reports(nodes[|nodes| - 1], eligible, deviceClass) then 1 else 0
  }

  /** The names of the nodes that report. */
  function Reporting(nodes: seq<Node>, eligible: set<string>, deviceClass: string): (r: set<string>)
    ensures r <= eligible
    ensures forall i :: 0 <= i < |nodes| && Reports(nodes[i], eligible, deviceClass) ==> nodes[i].name in r
    ensures forall h :: h in r ==> exists i :: 0 <= i < |nodes| && nodes[i].name == h && Reports(nodes[i], eligible, deviceClass)
  {
    if nodes == [] then {}
    else
      var rest, last := Reporting(nodes[..|nodes| - 1], eligible, deviceClass), nodes[|nodes| - 1];
      assert forall i :: 0 <= i < |nodes| - 1 ==> nodes[..|nodes| - 1][i] == nodes[i];
      if Reports(last, eligible, deviceClass) then rest + {last.name} else rest
  }

  function NodeEntry(pvs: seq<Volume>, class_: string, nodes: seq<Node>, eligible: set<string>, deviceClass: string, host: string): StorageNode {
    var free := FreeOn(nodes, eligible, deviceClass, host);
    StorageNode(if host == "" then 0 else AllocatedOn(pvs, class_, host), free, free.Some?, free.Some?)
  }

  function Table(hosts: set<string>, f: string -> StorageNode): map<string, StorageNode> {
    map h | h in hosts :: f(h)
  }

  /** The entry of a class after all its volumes and the given nodes have been counted in. */
  function EntryFor(pvs: seq<Volume>, class_: string, nodes: seq<Node>, eligible: set<string>, deviceClass: string): StorageStatus {
    var free := FreeTotal(nodes, eligible, deviceClass);
    var hosts := VolumeHosts(pvs, class_) + Reporting(nodes, eligible, deviceClass);
    StorageStatus(
      AllocatedIn(pvs, class_), Table(hosts, h => NodeEntry(pvs, class_, nodes, eligible, deviceClass, h)),
      free, free.Some?, free.Some?)
  }

  // ---- what that means, one object at a time -----------------------------------------------------

  /** The requirement that makes a volume local: the host name, In, one value. */
  predicate IsLocal(r: Requirement) {
    r.key == "kubernetes.io/hostname" && r.isIn && |r.values| == 1
  }

  predicate NotLocal(term: seq<Requirement>) {
    forall i :: 0 <= i < |term| ==> !IsLocal(term[i])
  }

  /** The first such requirement of the first term that has one names the host. */
  predicate LocalTo(affinity: seq<seq<Requirement>>, host: string) {
    exists t, i :: 0 <= t < |affinity| && 0 <= i < |affinity[t]| && IsLocal(affinity[t][i]) && affinity[t][i].values[0] == host
      && NotLocal(affinity[t][..i]) && forall s :: 0 <= s < t ==> NotLocal(affinity[s])
  }

  lemma {:induction false} TermHost(term: seq<Requirement>, i: nat)
    requires i < |term| && IsLocal(term[i]) && NotLocal(term[..i])
    ensures NamesHost(term) && HostOfTerm(term) == term[i].values[0]
  {
    assert NamesHost(term);
    if i > 0 {
      assert !IsLocal(term[..i][0]);
      var earlier := term[1..][..i - 1];
      assert forall j :: 0 <= j < |earlier| ==> earlier[j] == term[..i][j + 1];
      TermHost(term[1..], i - 1);
    }
  }

  /** A volume is local to the host that its node affinity names. */
  lemma {:induction false} HostIsLocal(affinity: seq<seq<Requirement>>, host: string)
    requires LocalTo(affinity, host)
    ensures HostOf(affinity) == host
  {
    var t, i :| 0 <= t < |affinity| && 0 <= i < |affinity[t]| && IsLocal(affinity[t][i]) && affinity[t][i].values[0] == host
      && NotLocal(affinity[t][..i]) && forall s :: 0 <= s < t ==> NotLocal(affinity[s]);
    if t == 0 {
      TermHost(affinity[0], i);
    } else {
      var rest := affinity[1..];
      assert NotLocal(affinity[0]) && !NamesHost(affinity[0]);
      assert rest[t - 1] == affinity[t] && forall s :: 0 <= s < t - 1 ==> rest[s] == affinity[s + 1];
      HostIsLocal(rest, host);
    }
  }

  lemma {:induction false} NowhereLocal(affinity: seq<seq<Requirement>>)
    requires forall s :: 0 <= s < |affinity| ==> NotLocal(affinity[s])
    ensures HostOf(affinity) == ""
  {
    if affinity != [] {
      assert NotLocal(affinity[0]) && !NamesHost(affinity[0]);
      NowhereLocal(affinity[1..]);
    }
  }

  /** What one more volume adds: its capacity to its class when it is bound, there also to the host it is local to, and nothing
      anywhere else. */
  lemma OneVolumeMore(pvs: seq<Volume>, pv: Volume, class_: string, host: string)
    ensures AllocatedIn(pvs + [pv], class_) == AllocatedIn(pvs, class_) + (if pv.bound && pv.className == class_ && class_ != "" then pv.capacity else 0)
    ensures LocalTo(pv.affinity, host) && pv.bound && pv.className == class_ && class_ != "" ==>
      AllocatedOn(pvs + [pv], class_, host) == AllocatedOn(pvs, class_, host) + pv.capacity
    ensures !pv.bound || pv.className != class_ || (exists h :: h != host && LocalTo(pv.affinity, h)) ==>
      AllocatedOn(pvs + [pv], class_, host) == AllocatedOn(pvs, class_, host)
    ensures host != "" && (forall s :: 0 <= s < |pv.affinity| ==> NotLocal(pv.affinity[s])) ==>
      AllocatedOn(pvs + [pv], class_, host) == AllocatedOn(pvs, class_, host)
  {
    assert (pvs + [pv])[..|pvs|] == pvs;
    if forall s :: 0 <= s < |pv.affinity| ==> NotLocal(pv.affinity[s]) {
      NowhereLocal(pv.affinity);
    }
    forall h | LocalTo(pv.affinity, h) ensures HostOf(pv.affinity) == h {
      HostIsLocal(pv.affinity, h);
    }
  }

  /** What a node reports for a device class: the annotation of the class, or of the default one, when it is not negative. */
  lemma ReportIs(node: Node, deviceClass: string)
    ensures var key := if deviceClass == "" then "capacity.topolvm.io/00default" else "capacity.topolvm.io/" + deviceClass;
      NodeFree(node, deviceClass) == if key in node.annotations && node.annotations[key].Some? && node.annotations[key].value >= 0
                                     then Some(node.annotations[key].value) else None
  {
    assert CAPACITY_ANNOTATION + "00default" == "capacity.topolvm.io/00default";
  }

  /** What one more node adds: its report to the total when it is eligible, and one to the count. */
  lemma OneReportMore(nodes: seq<Node>, node: Node, eligible: set<string>, deviceClass: string)
    ensures var before, after := FreeTotal(nodes, eligible, deviceClass), FreeTotal(nodes + [node], eligible, deviceClass);
      var counted, recounted := ReportCount(nodes, eligible, deviceClass), ReportCount(nodes + [node], eligible, deviceClass);
      if node.name in eligible && NodeFree(node, deviceClass).Some?
      then after == Some((if before.Some? then before.value else 0) + NodeFree(node, deviceClass).value) && recounted == counted + 1
      else after == before && recounted == counted
  {
    assert (nodes + [node])[..|nodes|] == nodes;
  }

  /** What one more class adds: its device class under its name when TopoLVM provisions it, over an earlier one of the name. */
  lemma OneClassMore(classes: seq<StorageClass>, c: StorageClass)
    ensures TopolvmClasses([]) == map[]
    ensures TopolvmClasses(classes + [c]) == if c.provisioner == "topolvm.io" then TopolvmClasses(classes)[c.name := c.deviceClass] else TopolvmClasses(classes)
  {
    assert (classes + [c])[..|classes|] == classes;
  }

  // ---- counting ----------------------------------------------------------------------------------

  predicate Distinct(nodes: seq<Node>) {
    forall i, j :: 0 <= i < j < |nodes| ==> nodes[i].name != nodes[j].name
  }

  function Names(nodes: seq<Node>): set<string> {
    set i | 0 <= i < |nodes| :: nodes[i].name
  }

  lemma {:induction false} CountIsCardinality(nodes: seq<Node>, eligible: set<string>, deviceClass: string)
    requires Distinct(nodes)
    ensures |Reporting(nodes, eligible, deviceClass)| == ReportCount(nodes, eligible, deviceClass)
  {
    if nodes != [] {
      var init, last := nodes[..|nodes| - 1], nodes[|nodes| - 1];
      CountIsCardinality(init, eligible, deviceClass);
      assert last.name !in Reporting(init, eligible, deviceClass);
    }
  }

  /** Counting argument: as many reports as eligible nodes means that every eligible node reported, and once. */
  lemma FullCountMeansAllReport(nodes: seq<Node>, eligible: set<string>, deviceClass: string)
    requires Distinct(nodes) && ReportCount(nodes, eligible, deviceClass) == |eligible|
    ensures forall i :: 0 <= i < |nodes| && nodes[i].name in eligible ==> Reports(nodes[i], eligible, deviceClass)
    ensures eligible == Reporting(nodes, eligible, deviceClass)
  {
    CountIsCardinality(nodes, eligible, deviceClass);
    SubsetOfSameSize(Reporting(nodes, eligible, deviceClass), eligible);
    forall i | 0 <= i < |nodes| && nodes[i].name in eligible ensures Reports(nodes[i], eligible, deviceClass) {
      var j :| 0 <= j < |nodes| && Reports(nodes[j], eligible, deviceClass) && nodes[j].name == nodes[i].name;
    }
  }

  function ValueOf(o: Option<int>): int {
    if o.Some? then o.value else 0
  }

  /** With distinct node names the class total is the sum of the per-node entries. */
  lemma {:induction false} FreeIsSumOfNodes(nodes: seq<Node>, eligible: set<string>, deviceClass: string, hosts: set<string>)
    requires Distinct(nodes) && Reporting(nodes, eligible, deviceClass) <= hosts
    ensures ValueOf(FreeTotal(nodes, eligible, deviceClass)) == SetSum(hosts, h => ValueOf(FreeOn(nodes, eligible, deviceClass, h)))
  {
    var f := h => ValueOf(FreeOn(nodes, eligible, deviceClass, h));
    if nodes == [] {
      SetSumZero(hosts, f);
    } else {
      var init, last := nodes[..|nodes| - 1], nodes[|nodes| - 1];
      FreeIsSumOfNodes(init, eligible, deviceClass, hosts);
      var g := h => ValueOf(FreeOn(init, eligible, deviceClass, h));
      SetSumEqual(hosts, h => ValueOf(FreeOn(init, eligible, deviceClass, h)), g);
      NoEarlierReport(nodes, eligible, deviceClass);
      SetSumRaise(hosts, g, f, last.name, if Reports(last, eligible, deviceClass) then NodeFree(last, deviceClass).value else 0);
      assert Reports(last, eligible, deviceClass) ==> last.name in hosts by {
        assert nodes[|nodes| - 1].name == last.name;
      }
    }
    SetSumEqual(hosts, h => ValueOf(FreeOn(nodes, eligible, deviceClass, h)), f);
  }

  lemma {:induction false} AbsentReportsNothing(nodes: seq<Node>, eligible: set<string>, deviceClass: string, host: string)
    requires forall i :: 0 <= i < |nodes| ==> nodes[i].name != host
    ensures FreeOn(nodes, eligible, deviceClass, host).None?
  {
    if nodes != [] {
      AbsentReportsNothing(nodes[..|nodes| - 1], eligible, deviceClass, host);
    }
  }

  lemma NoEarlierReport(nodes: seq<Node>, eligible: set<string>, deviceClass: string)
    requires nodes != [] && Distinct(nodes)
    ensures FreeOn(nodes[..|nodes| - 1], eligible, deviceClass, nodes[|nodes| - 1].name).None?
  {
    AbsentReportsNothing(nodes[..|nodes| - 1], eligible, deviceClass, nodes[|nodes| - 1].name);
  }

  /** Every charged volume is in one per-host sum, or in the sum of those without a local host. */
  lemma {:induction false} AllocatedIsSumOfNodes(pvs: seq<Volume>, class_: string, hosts: set<string>)
    requires "" !in hosts && VolumeHosts(pvs, class_) <= hosts
    ensures AllocatedIn(pvs, class_) == SetSum(hosts, h => AllocatedOn(pvs, class_, h)) + AllocatedOn(pvs, class_, "")
  {
    var f := h => AllocatedOn(pvs, class_, h);
    if pvs == [] {
      SetSumZero(hosts, f);
    } else {
      var init, last := pvs[..|pvs| - 1], pvs[|pvs| - 1];
      AllocatedIsSumOfNodes(init, class_, hosts);
      var g := h => AllocatedOn(init, class_, h);
      SetSumEqual(hosts, h => AllocatedOn(init, class_, h), g);
      SetSumRaise(hosts, g, f, HostOf(last.affinity), if Charges(last, class_) then last.capacity else 0);
    }
    SetSumEqual(hosts, h => AllocatedOn(pvs, class_, h), f);
  }

  lemma {:induction false} NothingAllocated(pvs: seq<Volume>, class_: string, host: string)
    requires host != "" && host !in VolumeHosts(pvs, class_)
    ensures AllocatedOn(pvs, class_, host) == 0
  {
    if pvs != [] {
      NothingAllocated(pvs[..|pvs| - 1], class_, host);
    }
  }

  lemma {:induction false} NothingReported(nodes: seq<Node>, eligible: set<string>, deviceClass: string, host: string)
    requires host !in Reporting(nodes, eligible, deviceClass)
    ensures FreeOn(nodes, eligible, deviceClass, host).None?
  {
    if nodes != [] {
      NothingReported(nodes[..|nodes| - 1], eligible, deviceClass, host);
    }
  }

  function EntryFree(entry: StorageStatus, host: string): int {
    if host in entry.nodes then ValueOf(entry.nodes[host].free) else 0
  }

  function EntryAllocated(entry: StorageStatus, host: string): int {
    if host in entry.nodes then entry.nodes[host].allocatedPV else 0
  }

  /** A stored class is complete: every eligible node is entered with its own report, the free total is the sum of the entries,
      and the allocated total is that of the entries plus the volumes without a local host. */
  ghost predicate CompleteEntry(entry: StorageStatus, pvs: seq<Volume>, class_: string, nodes: seq<Node>, eligible: set<string>, deviceClass: string) {
    && eligible <= entry.nodes.Keys
    && (forall i :: 0 <= i < |nodes| && nodes[i].name in eligible ==>
      NodeFree(nodes[i], deviceClass).Some? && entry.nodes[nodes[i].name].free == NodeFree(nodes[i], deviceClass))
    && entry.free.Some? && entry.free.value == SetSum(entry.nodes.Keys, h => EntryFree(entry, h))
    && entry.allocatedPV == SetSum(entry.nodes.Keys, h => EntryAllocated(entry, h)) + AllocatedOn(pvs, class_, "")
  }

  lemma {:induction false} OwnReport(nodes: seq<Node>, eligible: set<string>, deviceClass: string, i: nat)
    requires Distinct(nodes) && i < |nodes| && Reports(nodes[i], eligible, deviceClass)
    ensures FreeOn(nodes, eligible, deviceClass, nodes[i].name) == NodeFree(nodes[i], deviceClass)
    decreases |nodes|
  {
    if i < |nodes| - 1 {
      OwnReport(nodes[..|nodes| - 1], eligible, deviceClass, i);
    }
  }

  lemma SumsOfEntries(pvs: seq<Volume>, class_: string, nodes: seq<Node>, eligible: set<string>, deviceClass: string)
    requires Distinct(nodes) && forall i :: 0 <= i < |nodes| ==> nodes[i].name != ""
    ensures var entry := EntryFor(pvs, class_, nodes, eligible, deviceClass);
      && ValueOf(entry.free) == SetSum(entry.nodes.Keys, h => EntryFree(entry, h))
      && entry.allocatedPV == SetSum(entry.nodes.Keys, h => EntryAllocated(entry, h)) + AllocatedOn(pvs, class_, "")
  {
    var entry := EntryFor(pvs, class_, nodes, eligible, deviceClass);
    var hosts := VolumeHosts(pvs, class_) + Reporting(nodes, eligible, deviceClass);
    assert entry.nodes.Keys == hosts;
    assert "" !in hosts;
    FreeIsSumOfNodes(nodes, eligible, deviceClass, hosts);
    AllocatedIsSumOfNodes(pvs, class_, hosts);
    SetSumEqual(hosts, h => ValueOf(FreeOn(nodes, eligible, deviceClass, h)), h => EntryFree(entry, h));
    SetSumEqual(hosts, h => AllocatedOn(pvs, class_, h), h => EntryAllocated(entry, h));
  }

  /** As many reports as eligible nodes make the stored entry complete. */
  lemma FullCountIsComplete(pvs: seq<Volume>, class_: string, nodes: seq<Node>, eligible: set<string>, deviceClass: string)
    requires Distinct(nodes) && (forall i :: 0 <= i < |nodes| ==> nodes[i].name != "")
    requires ReportCount(nodes, eligible, deviceClass) == |eligible| && FreeTotal(nodes, eligible, deviceClass).Some?
    ensures CompleteEntry(EntryFor(pvs, class_, nodes, eligible, deviceClass), pvs, class_, nodes, eligible, deviceClass)
  {
    FullCountMeansAllReport(nodes, eligible, deviceClass);
    SumsOfEntries(pvs, class_, nodes, eligible, deviceClass);
    forall i | 0 <= i < |nodes| && nodes[i].name in eligible ensures FreeOn(nodes, eligible, deviceClass, nodes[i].name) == NodeFree(nodes[i], deviceClass) {
      OwnReport(nodes, eligible, deviceClass, i);
    }
  }
}
