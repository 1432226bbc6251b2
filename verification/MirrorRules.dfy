/** The rules of the rendered mirror, told from the child's Ingresses alone (internal/render/render.go:229-301, 364-379). */
module MirrorRules {
  import opened Api
  import opened HostObjects
  import opened MirrorAssembly
  import opened IngressMirror
  import opened MirrorClosure
  import opened MirrorSources
  import Decimal
  import Names

  // ---- ports -------------------------------------------------------------------------------------

  /** The first port of the name that is positive. */
  predicate FirstNamed(ports: seq<ServicePort>, name: string, port: int) {
    exists i :: 0 <= i < |ports| && ports[i] == ServicePort(name, port) && port > 0
      && forall j :: 0 <= j < i ==> ports[j].name != name || ports[j].port <= 0
  }

  /** The port of a backend: its number, or else the first positive port of its Service that has its port name. */
  predicate HasPort(service: Option<ChildService>, b: Backend, port: int) {
    if b.number > 0 then port == b.number
    else service.Some? && b.portName != "" && FirstNamed(service.value.ports, b.portName, port)
  }

  lemma {:induction false} FirstPortIs(ports: seq<ServicePort>, name: string, port: int)
    ensures FirstPort(ports, name) == Some(port) <==> FirstNamed(ports, name, port)
  {
    if ports != [] {
      var rest := ports[1..];
      FirstPortIs(rest, name, port);
      if PortNamed(ports[0], name) {
        assert FirstNamed(ports, name, port) <==> ports[0] == ServicePort(name, port);
      } else {
        if FirstNamed(ports, name, port) {
          var i :| 0 <= i < |ports| && ports[i] == ServicePort(name, port) && port > 0 && forall j :: 0 <= j < i ==> ports[j].name != name || ports[j].port <= 0;
          assert rest[i - 1] == ports[i];
          assert forall j :: 0 <= j < i - 1 ==> rest[j] == ports[j + 1];
        }
        if FirstNamed(rest, name, port) {
          var i :| 0 <= i < |rest| && rest[i] == ServicePort(name, port) && port > 0 && forall j :: 0 <= j < i ==> rest[j].name != name || rest[j].port <= 0;
          assert ports[i + 1] == rest[i];
          assert forall j :: 1 <= j < i + 1 ==> ports[j] == rest[j - 1];
        }
      }
    }
  }

  lemma PortIs(service: Option<ChildService>, b: Backend, port: int)
    ensures PortOf(service, b) == Some(port) <==> HasPort(service, b, port)
  {
    if b.number <= 0 && service.Some? && b.portName != "" {
      FirstPortIs(service.value.ports, b.portName, port);
    }
  }

  // ---- rules -------------------------------------------------------------------------------------

  /** An Ingress of that name is emitted and holds the rule. */
  predicate HoldsRule(objects: seq<HostObject>, name: string, rule: HostRule) {
    exists o :: 0 <= o < |objects| && objects[o].HostIngress? && objects[o].name == name && rule in objects[o].rules
  }

  /** The rule of a path of an Ingress: host, path, path type, port and Service, and the Ingress that holds it. */
  predicate RuleOfPath(cluster: string, suffix: string, e: Entry, p: Path, name: string, rule: HostRule) {
    && e.ingress.class_ == Some("kubecell") && p.backend.Some? && HasPort(e.service, p.backend.value, rule.port) && rule.port > 0
    && name == Names.Truncated(e.ingress.namespace + "-" + e.ingress.name, 63)
    && rule.host == e.ingress.name + "." + cluster + "." + suffix
    && rule.path == p.path
    && rule.pathType == (if p.pathType == "" then "ImplementationSpecific" else p.pathType)
    && rule.service == Names.Truncated("ing-" + e.ingress.name + "-" + p.backend.value.service + "-" + Decimal.Numeral(rule.port), 63)
  }

  ghost predicate RuleFrom(cluster: string, suffix: string, entries: seq<Entry>, name: string, rule: HostRule) {
    exists e, p :: e in entries && HasPath(e.ingress.rules, p) && RuleOfPath(cluster, suffix, e, p, name, rule)
  }

  /** The want of a visited path is the rule of the path. */
  lemma WantIsRule(cluster: string, suffix: string, e: Entry, p: Path, name: string, rule: HostRule)
    requires HasPath(e.ingress.rules, p)
    ensures RuleOfPath(cluster, suffix, e, p, name, rule) <==>
      Visits(e, p) && var w := NamingFor(cluster, suffix)(e, p, PathPort(e, p).value); w.ingress == name && w.rule == rule
  {
    if p.backend.Some? {
      PortIs(e.service, p.backend.value, rule.port);
    }
  }

  lemma HeldIsWanted(wants: seq<Want>, name: string, rule: HostRule)
    ensures HoldsRule(Mirror(wants), name, rule) <==> exists i :: 0 <= i < |wants| && wants[i].ingress == name && wants[i].rule == rule
  {
    if HoldsRule(Mirror(wants), name, rule) {
      var o :| 0 <= o < |Mirror(wants)| && Mirror(wants)[o].HostIngress? && Mirror(wants)[o].name == name && rule in Mirror(wants)[o].rules;
      ObjectAt(wants, o);
      RulesAreWanted(wants, name, rule);
    }
    if exists i :: 0 <= i < |wants| && wants[i].ingress == name && wants[i].rule == rule {
      var i :| 0 <= i < |wants| && wants[i].ingress == name && wants[i].rule == rule;
      EveryWantIsMirrored(wants, i);
    }
  }

  /** An Ingress of the rendered mirror holds a rule if and only if some path of a mirrored child Ingress gives it. */
  lemma RulesAreThosePaths(cluster: string, suffix: string, entries: seq<Entry>, name: string, rule: HostRule)
    ensures HoldsRule(Mirror(WantsOf(NamingFor(cluster, suffix), entries)), name, rule) <==> RuleFrom(cluster, suffix, entries, name, rule)
  {
    var naming := NamingFor(cluster, suffix);
    var wants := WantsOf(naming, entries);
    HeldIsWanted(wants, name, rule);
    if exists i :: 0 <= i < |wants| && wants[i].ingress == name && wants[i].rule == rule {
      var i :| 0 <= i < |wants| && wants[i].ingress == name && wants[i].rule == rule;
      WantsAreVisited(naming, entries, wants[i]);
      var e, p :| e in entries && Visits(e, p) && wants[i] == naming(e, p, PathPort(e, p).value);
      WantIsRule(cluster, suffix, e, p, name, rule);
    }
    if RuleFrom(cluster, suffix, entries, name, rule) {
      var e, p :| e in entries && HasPath(e.ingress.rules, p) && RuleOfPath(cluster, suffix, e, p, name, rule);
      WantIsRule(cluster, suffix, e, p, name, rule);
      var w := naming(e, p, PathPort(e, p).value);
      WantsAreVisited(naming, entries, w);
      var i :| 0 <= i < |wants| && wants[i] == w;
    }
  }

  // ---- Services and Endpoints --------------------------------------------------------------------

  /** A visited path asks for that Service name and port. */
  predicate ServiceOfPath(e: Entry, p: Path, name: string, port: int) {
    && e.ingress.class_ == Some("kubecell") && HasPath(e.ingress.rules, p) && p.backend.Some? && HasPort(e.service, p.backend.value, port) && port > 0
    && name == Names.Truncated("ing-" + e.ingress.name + "-" + p.backend.value.service + "-" + Decimal.Numeral(port), 63)
  }

  /** Every emitted Service has a name and a port that a path asks for, and emitted Endpoints hold the addresses and ports at hand
      for such a path. */
  lemma ObjectsComeFromPaths(cluster: string, suffix: string, entries: seq<Entry>, o: nat) returns (e: Entry, p: Path, port: int)
    requires o < |Mirror(WantsOf(NamingFor(cluster, suffix), entries))| && !Mirror(WantsOf(NamingFor(cluster, suffix), entries))[o].HostIngress?
    ensures var object_ := Mirror(WantsOf(NamingFor(cluster, suffix), entries))[o];
      && e in entries && ServiceOfPath(e, p, object_.name, port)
      && (object_ == HostService(object_.name, port) || (object_.HostEndpoints? && Unnamed(e.endpoints, object_.subsets)))
  {
    var wants := WantsOf(NamingFor(cluster, suffix), entries);
    var i := PairIsFirst(wants, o);
    e, p := VisitOf(cluster, suffix, entries, i);
    port := wants[i].port;
    PortIs(e.service, p.backend.value, port);
    StrippedIsUnnamed(e.endpoints, Stripped(e.endpoints));
  }

  // ---- the renderer ------------------------------------------------------------------------------

  /** Nothing but white space. */
  predicate Blank(s: string) {
    forall i :: 0 <= i < |s| ==> s[i] in " \t\n\r"
  }

  /** The host objects of all entries: Services with their Endpoints first, then the Ingresses. */
  method RenderIngressMirror(cluster: string, suffix: string, hostNamespace: string, entries: seq<Entry>) returns (r: Result<seq<HostObject>>)
    ensures r.Ok? <==> !Blank(suffix) && hostNamespace != ""
    ensures r.Ok? ==> r.value == Mirror(WantsOf(NamingFor(cluster, suffix), entries))
    ensures r.Ok? ==> forall name, rule :: HoldsRule(r.value, name, rule) <==> RuleFrom(cluster, suffix, entries, name, rule)
  {
    if Blank(suffix) {
      return Err("apps suffix is required");
    }
    if hostNamespace == "" {
      return Err("resolved Host namespace is required");
    }
    var result := RenderEntries(NamingFor(cluster, suffix), entries);
    r := Ok(result);
    forall name, rule ensures HoldsRule(result, name, rule) <==> RuleFrom(cluster, suffix, entries, name, rule) {
      RulesAreThosePaths(cluster, suffix, entries, name, rule);
    }
  }
}
