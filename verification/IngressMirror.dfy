/** Mirroring child Ingresses into host objects (internal/render/render.go:214-379). */
module IngressMirror {
  import opened Api
  import opened HostObjects
  import opened MirrorAssembly
  import Decimal
  import Names

  // ---- the child's objects -----------------------------------------------------------------------

  /** A path's backend: the child Service and its port by number or, when the number is not positive, by name. */
  datatype Backend = Backend(service: string, number: int, portName: string)

  /** `pathType` is "" when absent; `backend` is None for a resource backend. */
  datatype Path = Path(path: string, pathType: string, backend: Option<Backend>)

  datatype Rule = Rule(http: Option<seq<Path>>)

  datatype ChildIngress = ChildIngress(namespace: string, name: string, class_: Option<string>, rules: seq<Rule>)

  datatype ServicePort = ServicePort(name: string, port: int)

  datatype ChildService = ChildService(ports: seq<ServicePort>)

  /** A snapshot of an Ingress with one of its backends; None could not be read. */
  datatype Entry = Entry(ingress: ChildIngress, service: Option<ChildService>, endpoints: Option<seq<ChildSubset>>)

  // ---- ports and names ---------------------------------------------------------------------------

  predicate PortNamed(p: ServicePort, name: string) {
    p.name == name && p.port > 0
  }

  function FirstPort(ports: seq<ServicePort>, name: string): (r: Option<int>)
    ensures r.Some? ==> r.value > 0
  {
    if ports == [] then None else if PortNamed(ports[0], name) then Some(ports[0].port) else FirstPort(ports[1..], name)
  }

  /** The number, or the first positive port of that name. */
  function PortOf(service: Option<ChildService>, b: Backend): (r: Option<int>)
    ensures r.Some? ==> r.value > 0
  {
    if b.number > 0 then Some(b.number)
    else if service.None? || b.portName == "" then None
    else FirstPort(service.value.ports, b.portName)
  }

  method MirrorServicePort(service: Option<ChildService>, b: Backend) returns (r: Option<int>)
    ensures r == PortOf(service, b)
  {
    if b.number > 0 {
      return Some(b.number);
    }
    if service.None? || b.portName == "" {
      return None;
    }
    var ports := service.value.ports;
    for i := 0 to |ports|
      invariant FirstPort(ports, b.portName) == FirstPort(ports[i..], b.portName)
    {
      if ports[i].name == b.portName && ports[i].port > 0 {
        return Some(ports[i].port);
      }
      assert ports[i..][1..] == ports[i + 1..];
    }
    r := None;
  }

  function ServiceText(ingress: string, service: string, port: nat): string {
    "ing-" + ingress + "-" + service + "-" + Decimal.Numeral(port)
  }

  function ServiceName(ingress: string, service: string, port: nat): string {
    Names.Truncated(ServiceText(ingress, service, port), 63)
  }

  function IngressName(i: ChildIngress): string {
    Names.Truncated(i.namespace + "-" + i.name, 63)
  }

  // ---- the walk ----------------------------------------------------------------------------------

  /** What a visited path with a usable port asks for. The host of the child rule is ignored. */
  type Naming = (Entry, Path, int) -> Want

  function RuleOf(cluster: string, suffix: string, e: Entry, path: Path, service: string, port: int): HostRule {
    HostRule(e.ingress.name + "." + cluster + "." + suffix, path.path,
      if path.pathType != "" then path.pathType else "ImplementationSpecific", service, port)
  }

  function WantOf(cluster: string, suffix: string, e: Entry, path: Path, port: int): Want {
    var backend := if path.backend.Some? then path.backend.value.service else "";
    var service := ServiceName(e.ingress.name, backend, if port >= 0 then port else 0);
    Want(service, port, e.endpoints, IngressName(e.ingress), RuleOf(cluster, suffix, e, path, service, port), (e.ingress.namespace, backend))
  }

  function NamingFor(cluster: string, suffix: string): Naming {
    (e, path, port) => WantOf(cluster, suffix, e, path, port)
  }

  /** The port of a visited path, or None when the path is skipped. */
  function PathPort(e: Entry, path: Path): (r: Option<int>)
    ensures r.Some? ==> r.value > 0
  {
    if path.backend.Some? then PortOf(e.service, path.backend.value) else None
  }

  function WantsOfPaths(naming: Naming, e: Entry, paths: seq<Path>): seq<Want> {
    if paths == [] then []
    else
      var last := paths[|paths| - 1];
      WantsOfPaths(naming, e, paths[..|paths| - 1])
      + (if PathPort(e, last).Some? then [naming(e, last, PathPort(e, last).value)] else [])
  }

  function PathsOf(r: Rule): seq<Path> {
    if r.http.Some? then r.http.value else []
  }

  function WantsOfRules(naming: Naming, e: Entry, rules: seq<Rule>): seq<Want> {
    if rules == [] then [] else WantsOfRules(naming, e, rules[..|rules| - 1]) + WantsOfPaths(naming, e, PathsOf(rules[|rules| - 1]))
  }

  predicate Mirrored(i: ChildIngress) {
    i.class_ == Some(INGRESS_CLASS)
  }

  /** Every path of an entry's Ingress is visited with that entry, whichever backend the entry was read for. */
  function WantsOf(naming: Naming, entries: seq<Entry>): seq<Want> {
    if entries == [] then []
    else
      var e := entries[|entries| - 1];
      WantsOf(naming, entries[..|entries| - 1]) + (if Mirrored(e.ingress) then WantsOfRules(naming, e, e.ingress.rules) else [])
  }

  // ---- the loops ---------------------------------------------------------------------------------

  method RenderPaths(naming: Naming, before: Draft, e: Entry, paths: seq<Path>, ghost wants: seq<Want>) returns (d: Draft)
    requires Tracks(before, wants)
    ensures Tracks(d, wants + WantsOfPaths(naming, e, paths))
  {
    d := before;
    ghost var done := wants;
    for i := 0 to |paths|
      invariant done == wants + WantsOfPaths(naming, e, paths[..i]) && Tracks(d, done)
    {
      assert paths[..i + 1][..i] == paths[..i];
      if paths[i].backend.Some? {
        var port := MirrorServicePort(e.service, paths[i].backend.value);
        if port.Some? {
          var w := naming(e, paths[i], port.value);
          d := Add(d, w, done);
          done := done + [w];
        }
      }
    }
    assert paths[..|paths|] == paths;
  }

  lemma RulesGrow(naming: Naming, e: Entry, rules: seq<Rule>, i: nat, wants: seq<Want>)
    requires i < |rules|
    ensures wants + WantsOfRules(naming, e, rules[..i]) + WantsOfPaths(naming, e, PathsOf(rules[i])) == wants + WantsOfRules(naming, e, rules[..i + 1])
  {
    assert rules[..i + 1][..i] == rules[..i];
  }

  /** A rule without HTTP has no paths. */
  method RenderRules(naming: Naming, before: Draft, e: Entry, rules: seq<Rule>, ghost wants: seq<Want>) returns (d: Draft)
    requires Tracks(before, wants)
    ensures Tracks(d, wants + WantsOfRules(naming, e, rules))
  {
    d := before;
    ghost var done := wants;
    for i := 0 to |rules|
      invariant done == wants + WantsOfRules(naming, e, rules[..i]) && Tracks(d, done)
    {
      d := RenderPaths(naming, d, e, PathsOf(rules[i]), done);
      RulesGrow(naming, e, rules, i, wants);
      done := done + WantsOfPaths(naming, e, PathsOf(rules[i]));
    }
    assert rules[..|rules|] == rules;
  }

  method RenderEntries(naming: Naming, entries: seq<Entry>) returns (result: seq<HostObject>)
    ensures result == Mirror(WantsOf(naming, entries))
  {
    var d := Draft([], {}, map[], []);
    for i := 0 to |entries|
      invariant Tracks(d, WantsOf(naming, entries[..i]))
    {
      assert entries[..i + 1][..i] == entries[..i];
      if Mirrored(entries[i].ingress) {
        d := RenderRules(naming, d, entries[i], entries[i].ingress.rules, WantsOf(naming, entries[..i]));
      } else {
        assert WantsOf(naming, entries[..i + 1]) == WantsOf(naming, entries[..i]);
      }
    }
    assert entries[..|entries|] == entries;
    result := Finish(d, WantsOf(naming, entries));
  }
}
