/** Where the mirrored objects come from: collecting the backends of child Ingresses
    (internal/controller/virtualcluster_controller.go:338-388), which paths are visited, when truncation lets ports mix, and
    when the Endpoints are those of the path's own Service. */
module MirrorSources {
  import opened Api
  import opened HostObjects
  import opened MirrorAssembly
  import opened IngressMirror
  import opened MirrorClosure
  import Decimal
  import Names

  // ---- visited paths -----------------------------------------------------------------------------

  predicate HasPath(rules: seq<Rule>, p: Path) {
    exists i :: 0 <= i < |rules| && p in PathsOf(rules[i])
  }

  predicate Visits(e: Entry, p: Path) {
    Mirrored(e.ingress) && HasPath(e.ingress.rules, p) && PathPort(e, p).Some?
  }

  /** The want comes from a visited path. */
  ghost predicate Visited(naming: Naming, entries: seq<Entry>, w: Want) {
    exists e, p :: e in entries && Visits(e, p) && w == naming(e, p, PathPort(e, p).value)
  }

  lemma {:induction false} PathWants(naming: Naming, e: Entry, paths: seq<Path>, w: Want)
    ensures w in WantsOfPaths(naming, e, paths) <==> exists p :: p in paths && PathPort(e, p).Some? && w == naming(e, p, PathPort(e, p).value)
  {
    if paths != [] {
      PathWants(naming, e, paths[..|paths| - 1], w);
      assert paths == paths[..|paths| - 1] + [paths[|paths| - 1]];
    }
  }

  lemma {:induction false} RuleWants(naming: Naming, e: Entry, rules: seq<Rule>, w: Want)
    ensures w in WantsOfRules(naming, e, rules) <==> exists p :: HasPath(rules, p) && PathPort(e, p).Some? && w == naming(e, p, PathPort(e, p).value)
  {
    if rules != [] {
      var init, last := rules[..|rules| - 1], rules[|rules| - 1];
      RuleWants(naming, e, init, w);
      PathWants(naming, e, PathsOf(last), w);
      forall p ensures HasPath(rules, p) <==> HasPath(init, p) || p in PathsOf(last) {
        assert rules[|init|] == last && forall i :: 0 <= i < |init| ==> rules[i] == init[i];
      }
    }
  }

  /** The wants are exactly those of the visited paths. */
  lemma {:induction false} WantsAreVisited(naming: Naming, entries: seq<Entry>, w: Want)
    ensures w in WantsOf(naming, entries) <==> Visited(naming, entries, w)
  {
    if entries != [] {
      var init, last := entries[..|entries| - 1], entries[|entries| - 1];
      WantsAreVisited(naming, init, w);
      RuleWants(naming, last, last.ingress.rules, w);
      assert entries == init + [last];
      if Mirrored(last.ingress) && w in WantsOfRules(naming, last, last.ingress.rules) {
        var p :| HasPath(last.ingress.rules, p) && PathPort(last, p).Some? && w == naming(last, p, PathPort(last, p).value);
        assert last in entries && Visits(last, p);
      }
      if Visited(naming, entries, w) {
        var e, p :| e in entries && Visits(e, p) && w == naming(e, p, PathPort(e, p).value);
        assert e in init || e == last;
      }
    }
  }

  // ---- names and ports ---------------------------------------------------------------------------

  /** No Service name of a visited path is longer than a label. */
  ghost predicate NothingTruncated(entries: seq<Entry>) {
    forall e, p :: e in entries && Visits(e, p) ==> |ServiceText(e.ingress.name, p.backend.value.service, PathPort(e, p).value)| <= 63
  }

  lemma UntruncatedIsText(ingress: string, service: string, port: nat)
    requires |ServiceText(ingress, service, port)| <= 63
    ensures ServiceName(ingress, service, port) == ServiceText(ingress, service, port)
  {
    var s := ServiceText(ingress, service, port);
    var numeral := Decimal.Numeral(port);
    assert s[0] == 'i';
    assert s[|s| - 1] == numeral[|numeral| - 1];
    assert '-' !in Decimal.DIGITS;
  }

  /** A short enough name says its port. */
  lemma NameTellsPort(ingress: string, service: string, port: nat, ingress': string, service': string, port': nat)
    ensures |ServiceText(ingress, service, port)| <= 63 && |ServiceText(ingress', service', port')| <= 63 ==>
      ServiceName(ingress, service, port) == ServiceName(ingress', service', port') ==> port == port'
  {
    if |ServiceText(ingress, service, port)| <= 63 && |ServiceText(ingress', service', port')| <= 63
       && ServiceName(ingress, service, port) == ServiceName(ingress', service', port') {
      UntruncatedIsText(ingress, service, port);
      UntruncatedIsText(ingress', service', port');
      Decimal.SuffixIsReadable("ing-" + ingress + "-" + service, port, "ing-" + ingress' + "-" + service', port');
    }
  }

  lemma WantFields(cluster: string, suffix: string, e: Entry, p: Path)
    requires Visits(e, p)
    ensures var port := PathPort(e, p).value; var w := NamingFor(cluster, suffix)(e, p, port);
      && w.service == ServiceName(e.ingress.name, p.backend.value.service, port) && w.port == port
      && w.rule.service == w.service && w.rule.port == port && w.endpoints == e.endpoints
      && w.backend == (e.ingress.namespace, p.backend.value.service)
  {
  }

  lemma VisitOf(cluster: string, suffix: string, entries: seq<Entry>, i: nat) returns (e: Entry, p: Path)
    requires i < |WantsOf(NamingFor(cluster, suffix), entries)|
    ensures e in entries && Visits(e, p)
    ensures var w := WantsOf(NamingFor(cluster, suffix), entries)[i]; var port := PathPort(e, p).value;
      && w.service == ServiceName(e.ingress.name, p.backend.value.service, port) && w.port == port
      && w.rule.service == w.service && w.rule.port == port && w.endpoints == e.endpoints
      && w.backend == (e.ingress.namespace, p.backend.value.service)
  {
    var naming := NamingFor(cluster, suffix);
    var w := WantsOf(naming, entries)[i];
    WantsAreVisited(naming, entries, w);
    e, p :| e in entries && Visits(e, p) && w == naming(e, p, PathPort(e, p).value);
    WantFields(cluster, suffix, e, p);
  }

  /** The mirror of any entries is closed, and where nothing was truncated every rule's port is its Service's port. */
  lemma RenderedMirrorIsSound(cluster: string, suffix: string, entries: seq<Entry>)
    ensures var wants := WantsOf(NamingFor(cluster, suffix), entries); var objects := Mirror(wants);
      && RulesNameTheirService(wants) && NamesUnique(objects)
      && (forall i, r :: 0 <= i < |objects| && objects[i].HostIngress? && r in objects[i].rules ==> Served(objects, r))
      && (NothingTruncated(entries) ==> PortsAgree(objects))
  {
    var wants := WantsOf(NamingFor(cluster, suffix), entries);
    forall i | 0 <= i < |wants| ensures wants[i].rule.service == wants[i].service && wants[i].rule.port == wants[i].port {
      var e, p := VisitOf(cluster, suffix, entries, i);
    }
    MirrorIsClosed(wants);
    if NothingTruncated(entries) {
      forall i, j | 0 <= i < |wants| && 0 <= j < |wants| && wants[i].service == wants[j].service ensures wants[i].port == wants[j].port {
        var e, p := VisitOf(cluster, suffix, entries, i);
        var e', p' := VisitOf(cluster, suffix, entries, j);
        NameTellsPort(e.ingress.name, p.backend.value.service, PathPort(e, p).value,
                      e'.ingress.name, p'.backend.value.service, PathPort(e', p').value);
      }
      PortsAgreeIff(wants);
    }
  }

  lemma SamePrefixSameName(a: string, b: string)
    requires |a| >= 63 && |b| >= 63 && a[..63] == b[..63]
    ensures Names.Truncated(a, 63) == Names.Truncated(b, 63)
  {
    if |a| == 63 {
      assert a[..63] == a;
    }
    if |b| == 63 {
      assert b[..63] == b;
    }
  }

  /** An Ingress name of 59 characters leaves no room: all its backends and ports share one Service name. */
  lemma LongNamesCollide(ingress: string, service: string, port: nat, service': string, port': nat)
    requires |ingress| >= 59
    ensures ServiceName(ingress, service, port) == ServiceName(ingress, service', port')
  {
    var a, b := ServiceText(ingress, service, port), ServiceText(ingress, service', port');
    assert a[..63] == ("ing-" + ingress)[..63] && b[..63] == ("ing-" + ingress)[..63];
    SamePrefixSameName(a, b);
  }

  /** So with two ports behind such an Ingress some rule names a Service with another port. */
  lemma TruncationMixesPorts(cluster: string, suffix: string, entries: seq<Entry>, e: Entry, p: Path, q: Path)
    requires e in entries && Visits(e, p) && Visits(e, q) && |e.ingress.name| >= 59 && PathPort(e, p) != PathPort(e, q)
    ensures !PortsAgree(Mirror(WantsOf(NamingFor(cluster, suffix), entries)))
  {
    var naming := NamingFor(cluster, suffix);
    var wants := WantsOf(naming, entries);
    RenderedMirrorIsSound(cluster, suffix, entries);
    PortsAgreeIff(wants);
    WantsAreVisited(naming, entries, naming(e, p, PathPort(e, p).value));
    WantsAreVisited(naming, entries, naming(e, q, PathPort(e, q).value));
    WantFields(cluster, suffix, e, p);
    WantFields(cluster, suffix, e, q);
    LongNamesCollide(e.ingress.name, p.backend.value.service, PathPort(e, p).value, q.backend.value.service, PathPort(e, q).value);
    var i :| 0 <= i < |wants| && wants[i] == naming(e, p, PathPort(e, p).value);
    var j :| 0 <= j < |wants| && wants[j] == naming(e, q, PathPort(e, q).value);
    assert wants[i].service == wants[j].service && wants[i].port != wants[j].port;
  }

  // ---- collecting backends -----------------------------------------------------------------------

  /** What the child API answers in this round, by namespace and name; None is a failed read. */
  datatype ChildApi = ChildApi(service: (string, string) -> Option<ChildService>, endpoints: (string, string) -> Option<seq<ChildSubset>>)

  predicate Collects(child: ChildApi, i: ChildIngress, p: Path) {
    p.backend.Some? && child.service(i.namespace, p.backend.value.service).Some?
  }

  function EntryFor(child: ChildApi, i: ChildIngress, p: Path): Entry
    requires p.backend.Some?
  {
    Entry(i, child.service(i.namespace, p.backend.value.service), child.endpoints(i.namespace, p.backend.value.service))
  }

  function EntriesOfPaths(child: ChildApi, i: ChildIngress, paths: seq<Path>): seq<Entry> {
    if paths == [] then []
    else
      var last := paths[|paths| - 1];
      EntriesOfPaths(child, i, paths[..|paths| - 1]) + (if Collects(child, i, last) then [EntryFor(child, i, last)] else [])
  }

  function EntriesOfRules(child: ChildApi, i: ChildIngress, rules: seq<Rule>): seq<Entry> {
    if rules == [] then [] else EntriesOfRules(child, i, rules[..|rules| - 1]) + EntriesOfPaths(child, i, PathsOf(rules[|rules| - 1]))
  }

  /** One entry per path of a mirrored Ingress whose Service could be read. */
  function Collected(child: ChildApi, ingresses: seq<ChildIngress>): seq<Entry> {
    if ingresses == [] then []
    else
      var last := ingresses[|ingresses| - 1];
      Collected(child, ingresses[..|ingresses| - 1]) + (if Mirrored(last) then EntriesOfRules(child, last, last.rules) else [])
  }

  type ServiceCache = map<(string, string), ChildService>
  type EndpointsCache = map<(string, string), seq<ChildSubset>>

  /** A cache holds what a read would give. */
  predicate CachesAgree(child: ChildApi, services: ServiceCache, endpoints: EndpointsCache) {
    && (forall k :: k in services ==> child.service(k.0, k.1) == Some(services[k]))
    && (forall k :: k in endpoints ==> child.endpoints(k.0, k.1) == Some(endpoints[k]))
  }

  /** The body of the collecting loops: cached reads, and a skipped path when the Service cannot be read. */
  method CollectPath(child: ChildApi, i: ChildIngress, p: Path, services0: ServiceCache, endpoints0: EndpointsCache)
    returns (entry: Option<Entry>, services: ServiceCache, endpoints: EndpointsCache)
    requires CachesAgree(child, services0, endpoints0)
    ensures CachesAgree(child, services, endpoints)
    ensures entry.Some? <==> Collects(child, i, p)
    ensures entry.Some? ==> entry.value == EntryFor(child, i, p)
  {
    entry, services, endpoints := None, services0, endpoints0;
    if p.backend.None? {
      return;
    }
    var name := p.backend.value.service;
    var key := (i.namespace, name);
    if key !in services {
      var fetched := child.service(i.namespace, name);
      if fetched.None? {
        return;
      }
      services := services[key := fetched.value];
    }
    var found: Option<seq<ChildSubset>> := None;
    if key in endpoints {
      found := Some(endpoints[key]);
    } else {
      var fetched := child.endpoints(i.namespace, name);
      if fetched.Some? {
        found := fetched;
        endpoints := endpoints[key := fetched.value];
      }
    }
    entry := Some(Entry(i, Some(services[key]), found));
  }

  method CollectPaths(child: ChildApi, i: ChildIngress, paths: seq<Path>, services0: ServiceCache, endpoints0: EndpointsCache)
    returns (entries: seq<Entry>, services: ServiceCache, endpoints: EndpointsCache)
    requires CachesAgree(child, services0, endpoints0)
    ensures CachesAgree(child, services, endpoints) && entries == EntriesOfPaths(child, i, paths)
  {
    entries, services, endpoints := [], services0, endpoints0;
    for m := 0 to |paths|
      invariant CachesAgree(child, services, endpoints) && entries == EntriesOfPaths(child, i, paths[..m])
    {
      assert paths[..m + 1][..m] == paths[..m];
      var entry: Option<Entry>;
      entry, services, endpoints := CollectPath(child, i, paths[m], services, endpoints);
      if entry.Some? {
        entries := entries + [entry.value];
      }
    }
    assert paths[..|paths|] == paths;
  }

  method CollectRules(child: ChildApi, i: ChildIngress, rules: seq<Rule>, services0: ServiceCache, endpoints0: EndpointsCache)
    returns (entries: seq<Entry>, services: ServiceCache, endpoints: EndpointsCache)
    requires CachesAgree(child, services0, endpoints0)
    ensures CachesAgree(child, services, endpoints) && entries == EntriesOfRules(child, i, rules)
  {
    entries, services, endpoints := [], services0, endpoints0;
    for j := 0 to |rules|
      invariant CachesAgree(child, services, endpoints) && entries == EntriesOfRules(child, i, rules[..j])
    {
      assert rules[..j + 1][..j] == rules[..j];
      var more: seq<Entry>;
      more, services, endpoints := CollectPaths(child, i, PathsOf(rules[j]), services, endpoints);
      entries := entries + more;
    }
    assert rules[..|rules|] == rules;
  }

  /** The caches change nothing: the entries are those of uncached reads. */
  method CollectBackends(child: ChildApi, ingresses: seq<ChildIngress>) returns (entries: seq<Entry>)
    ensures entries == Collected(child, ingresses)
    ensures forall e :: e in entries <==> ReadFor(child, ingresses, e)
  {
    forall e ensures e in Collected(child, ingresses) <==> ReadFor(child, ingresses, e) {
      CollectedExactly(child, ingresses, e);
    }
    entries := [];
    var services: ServiceCache, endpoints: EndpointsCache := map[], map[];
    for i := 0 to |ingresses|
      invariant CachesAgree(child, services, endpoints) && entries == Collected(child, ingresses[..i])
    {
      assert ingresses[..i + 1][..i] == ingresses[..i];
      if Mirrored(ingresses[i]) {
        var more: seq<Entry>;
        more, services, endpoints := CollectRules(child, ingresses[i], ingresses[i].rules, services, endpoints);
        entries := entries + more;
      }
    }
    assert ingresses[..|ingresses|] == ingresses;
  }

  // ---- Endpoints ---------------------------------------------------------------------------------

  /** All backends of the Ingress are one Service. */
  predicate OneBackend(i: ChildIngress) {
    forall a, b, p, q :: 0 <= a < |i.rules| && 0 <= b < |i.rules| && p in PathsOf(i.rules[a]) && q in PathsOf(i.rules[b]) ==>
      p.backend.Some? && q.backend.Some? ==> p.backend.value.service == q.backend.value.service
  }

  lemma {:induction false} PathEntries(child: ChildApi, i: ChildIngress, paths: seq<Path>, e: Entry)
    requires e in EntriesOfPaths(child, i, paths)
    ensures exists p :: p in paths && Collects(child, i, p) && e == EntryFor(child, i, p)
  {
    var init, last := paths[..|paths| - 1], paths[|paths| - 1];
    if e in EntriesOfPaths(child, i, init) {
      PathEntries(child, i, init, e);
    } else {
      assert last in paths;
    }
  }

  lemma {:induction false} RuleEntries(child: ChildApi, i: ChildIngress, rules: seq<Rule>, e: Entry)
    requires e in EntriesOfRules(child, i, rules)
    ensures exists p :: HasPath(rules, p) && Collects(child, i, p) && e == EntryFor(child, i, p)
  {
    var init, last := rules[..|rules| - 1], rules[|rules| - 1];
    if e in EntriesOfRules(child, i, init) {
      RuleEntries(child, i, init, e);
      var p :| HasPath(init, p) && Collects(child, i, p) && e == EntryFor(child, i, p);
      var m :| 0 <= m < |init| && p in PathsOf(init[m]);
      assert p in PathsOf(rules[m]);
    } else {
      PathEntries(child, i, PathsOf(last), e);
      var p :| p in PathsOf(last) && Collects(child, i, p) && e == EntryFor(child, i, p);
      assert p in PathsOf(rules[|rules| - 1]);
    }
  }

  /** Each entry was read for one of the paths of its own, listed Ingress. */
  lemma {:induction false} CollectedEntries(child: ChildApi, ingresses: seq<ChildIngress>, e: Entry)
    requires e in Collected(child, ingresses)
    ensures e.ingress in ingresses && Mirrored(e.ingress)
    ensures exists p :: HasPath(e.ingress.rules, p) && Collects(child, e.ingress, p) && e == EntryFor(child, e.ingress, p)
  {
    var init, last := ingresses[..|ingresses| - 1], ingresses[|ingresses| - 1];
    if e in Collected(child, init) {
      CollectedEntries(child, init, e);
    } else {
      RuleEntries(child, last, last.rules, e);
    }
  }

  lemma {:induction false} PathIsCollected(child: ChildApi, i: ChildIngress, paths: seq<Path>, p: Path)
    requires p in paths && Collects(child, i, p)
    ensures EntryFor(child, i, p) in EntriesOfPaths(child, i, paths)
  {
    if p != paths[|paths| - 1] {
      PathIsCollected(child, i, paths[..|paths| - 1], p);
    }
  }

  lemma {:induction false} RuleIsCollected(child: ChildApi, i: ChildIngress, rules: seq<Rule>, p: Path)
    requires HasPath(rules, p) && Collects(child, i, p)
    ensures EntryFor(child, i, p) in EntriesOfRules(child, i, rules)
  {
    var init, last := rules[..|rules| - 1], rules[|rules| - 1];
    if p in PathsOf(last) {
      PathIsCollected(child, i, PathsOf(last), p);
    } else {
      var m :| 0 <= m < |rules| && p in PathsOf(rules[m]);
      assert init[m] == rules[m];
      RuleIsCollected(child, i, init, p);
    }
  }

  lemma {:induction false} IngressIsCollected(child: ChildApi, ingresses: seq<ChildIngress>, i: ChildIngress, p: Path)
    requires i in ingresses && Mirrored(i) && HasPath(i.rules, p) && Collects(child, i, p)
    ensures EntryFor(child, i, p) in Collected(child, ingresses)
  {
    var init, last := ingresses[..|ingresses| - 1], ingresses[|ingresses| - 1];
    if i == last {
      RuleIsCollected(child, i, i.rules, p);
    } else {
      IngressIsCollected(child, init, i, p);
    }
  }

  /** The entry was read for a path of a listed Ingress of the class, whose Service is readable; its Endpoints may not be. */
  ghost predicate ReadFor(child: ChildApi, ingresses: seq<ChildIngress>, e: Entry) {
    exists i, p :: i in ingresses && HasPath(i.rules, p) && i.class_ == Some("kubecell") && p.backend.Some?
      && child.service(i.namespace, p.backend.value.service).Some?
      && e == Entry(i, child.service(i.namespace, p.backend.value.service), child.endpoints(i.namespace, p.backend.value.service))
  }

  /** The entries are exactly those. */
  lemma CollectedExactly(child: ChildApi, ingresses: seq<ChildIngress>, e: Entry)
    ensures e in Collected(child, ingresses) <==> ReadFor(child, ingresses, e)
  {
    if e in Collected(child, ingresses) {
      CollectedEntries(child, ingresses, e);
      var p :| HasPath(e.ingress.rules, p) && Collects(child, e.ingress, p) && e == EntryFor(child, e.ingress, p);
    }
    if ReadFor(child, ingresses, e) {
      var i, p :| i in ingresses && HasPath(i.rules, p) && i.class_ == Some("kubecell") && p.backend.Some?
        && child.service(i.namespace, p.backend.value.service).Some?
        && e == Entry(i, child.service(i.namespace, p.backend.value.service), child.endpoints(i.namespace, p.backend.value.service));
      IngressIsCollected(child, ingresses, i, p);
    }
  }

  /** What a caller can see of the child: a path of a mirrored Ingress whose Service is readable and has the port. */
  predicate Asks(child: ChildApi, i: ChildIngress, p: Path) {
    Mirrored(i) && HasPath(i.rules, p) && Collects(child, i, p) && PortOf(child.service(i.namespace, p.backend.value.service), p.backend.value).Some?
  }

  function AskedName(child: ChildApi, i: ChildIngress, p: Path): string
    requires Asks(child, i, p)
  {
    ServiceName(i.name, p.backend.value.service, PortOf(child.service(i.namespace, p.backend.value.service), p.backend.value).value)
  }

  /** The entry at hand for a path of an Ingress with one backend Service is the one read for that path. */
  lemma OneBackendIsPaired(child: ChildApi, ingresses: seq<ChildIngress>, e: Entry, p: Path)
    requires e in Collected(child, ingresses) && Visits(e, p) && OneBackend(e.ingress)
    ensures e == EntryFor(child, e.ingress, p) && Asks(child, e.ingress, p) && e.ingress in ingresses
  {
    CollectedEntries(child, ingresses, e);
    var q :| HasPath(e.ingress.rules, q) && Collects(child, e.ingress, q) && e == EntryFor(child, e.ingress, q);
    var a :| 0 <= a < |e.ingress.rules| && p in PathsOf(e.ingress.rules[a]);
    var b :| 0 <= b < |e.ingress.rules| && q in PathsOf(e.ingress.rules[b]);
  }

  // ---- when Endpoints are right ------------------------------------------------------------------

  /** The wants of a round: the listed Ingresses, collected and walked. */
  function RoundWants(cluster: string, suffix: string, child: ChildApi, ingresses: seq<ChildIngress>): seq<Want> {
    WantsOf(NamingFor(cluster, suffix), Collected(child, ingresses))
  }

  predicate RightEndpoints(cluster: string, suffix: string, child: ChildApi, ingresses: seq<ChildIngress>) {
    var wants := RoundWants(cluster, suffix, child, ingresses);
    EndpointsAgree(wants, Mirror(wants), child.endpoints)
  }

  ghost predicate OneBackendEach(ingresses: seq<ChildIngress>) {
    forall i :: i in ingresses && Mirrored(i) ==> OneBackend(i)
  }

  /** No Service name is shared by two child Services. */
  ghost predicate NamesAreSeparate(child: ChildApi, ingresses: seq<ChildIngress>) {
    forall i, j, p, q :: i in ingresses && j in ingresses && Asks(child, i, p) && Asks(child, j, q) && AskedName(child, i, p) == AskedName(child, j, q) ==>
      i.namespace == j.namespace && p.backend.value.service == q.backend.value.service
  }

  /** The visited path behind a want of such a round. */
  lemma AskedWant(cluster: string, suffix: string, child: ChildApi, ingresses: seq<ChildIngress>, m: nat) returns (i: ChildIngress, p: Path)
    requires OneBackendEach(ingresses) && m < |RoundWants(cluster, suffix, child, ingresses)|
    ensures var w := RoundWants(cluster, suffix, child, ingresses)[m];
      && i in ingresses && Asks(child, i, p) && w.service == AskedName(child, i, p)
      && w.backend == (i.namespace, p.backend.value.service) && w.endpoints == child.endpoints(w.backend.0, w.backend.1)
  {
    var entries := Collected(child, ingresses);
    var e;
    e, p := VisitOf(cluster, suffix, entries, m);
    CollectedEntries(child, ingresses, e);
    OneBackendIsPaired(child, ingresses, e, p);
    i := e.ingress;
  }

  lemma RoundRulesNameServices(cluster: string, suffix: string, child: ChildApi, ingresses: seq<ChildIngress>)
    ensures RulesNameTheirService(RoundWants(cluster, suffix, child, ingresses))
  {
    RenderedMirrorIsSound(cluster, suffix, Collected(child, ingresses));
  }

  /** Exactly, when each Ingress has one backend: every rule gets the Endpoints of its own backend if and only if no Service name
      is shared by backends with different Endpoints. */
  lemma OneBackendEachIff(cluster: string, suffix: string, child: ChildApi, ingresses: seq<ChildIngress>)
    requires OneBackendEach(ingresses)
    ensures RightEndpoints(cluster, suffix, child, ingresses) <==> NamesShareEndpoints(RoundWants(cluster, suffix, child, ingresses), child.endpoints)
  {
    var wants := RoundWants(cluster, suffix, child, ingresses);
    forall m | 0 <= m < |wants| ensures wants[m].endpoints == child.endpoints(wants[m].backend.0, wants[m].backend.1) {
      var i, p := AskedWant(cluster, suffix, child, ingresses, m);
    }
    RoundRulesNameServices(cluster, suffix, child, ingresses);
    SharedNamesIff(wants, child.endpoints);
  }

  /** What a caller can check on the child's Ingresses: with one backend each and no shared Service name, every rule of the
      rendered mirror is served by the Endpoints of its own backend. */
  lemma EndpointsAreRight(cluster: string, suffix: string, child: ChildApi, ingresses: seq<ChildIngress>)
    requires OneBackendEach(ingresses) && NamesAreSeparate(child, ingresses)
    ensures RightEndpoints(cluster, suffix, child, ingresses)
  {
    var wants := RoundWants(cluster, suffix, child, ingresses);
    forall m, n | 0 <= m < |wants| && 0 <= n < |wants| && wants[m].service == wants[n].service
      ensures Own(child.endpoints, wants[m]) == Own(child.endpoints, wants[n])
    {
      var i, p := AskedWant(cluster, suffix, child, ingresses, m);
      var j, q := AskedWant(cluster, suffix, child, ingresses, n);
    }
    OneBackendEachIff(cluster, suffix, child, ingresses);
  }

  // ---- when they are not -------------------------------------------------------------------------

  function OwnEndpoints(child: ChildApi, i: ChildIngress, p: Path): seq<Subset>
    requires p.backend.Some?
  {
    Stripped(child.endpoints(i.namespace, p.backend.value.service))
  }

  /** An Ingress with these paths in one rule, all of them to readable Services by number. */
  predicate Plain(child: ChildApi, i: ChildIngress, paths: seq<Path>) {
    Mirrored(i) && i.rules == [Rule(Some(paths))] && forall p :: p in paths ==> Collects(child, i, p) && p.backend.value.number > 0
  }

  function NumberedName(i: ChildIngress, p: Path): string
    requires p.backend.Some? && p.backend.value.number > 0
  {
    ServiceName(i.name, p.backend.value.service, p.backend.value.number)
  }

  lemma PlainIsCollected(child: ChildApi, ingresses: seq<ChildIngress>, i: ChildIngress, paths: seq<Path>, p: Path)
    requires i in ingresses && Plain(child, i, paths) && p in paths
    ensures EntryFor(child, i, p) in Collected(child, ingresses)
  {
    assert p in PathsOf(i.rules[0]);
    IngressIsCollected(child, ingresses, i, p);
  }

  /** The want of path q visited with the entry of path p. */
  lemma PlainIsWanted(cluster: string, suffix: string, child: ChildApi, ingresses: seq<ChildIngress>, i: ChildIngress, paths: seq<Path>, p: Path, q: Path)
    returns (m: nat)
    requires i in ingresses && Plain(child, i, paths) && p in paths && q in paths
    ensures var wants := RoundWants(cluster, suffix, child, ingresses);
      m < |wants| && wants[m].service == NumberedName(i, q) && Own(child.endpoints, wants[m]) == OwnEndpoints(child, i, q)
  {
    var naming, e := NamingFor(cluster, suffix), EntryFor(child, i, p);
    PlainIsCollected(child, ingresses, i, paths, p);
    assert q in PathsOf(i.rules[0]);
    assert Visits(e, q);
    var w := naming(e, q, q.backend.value.number);
    WantsAreVisited(naming, Collected(child, ingresses), w);
    WantFields(cluster, suffix, e, q);
    m :| 0 <= m < |RoundWants(cluster, suffix, child, ingresses)| && RoundWants(cluster, suffix, child, ingresses)[m] == w;
  }

  /** Two backends under one Service name with different Endpoints: some rule is served by the wrong ones. */
  lemma SharedNameMixesEndpoints(cluster: string, suffix: string, child: ChildApi, ingresses: seq<ChildIngress>,
                                 i: ChildIngress, paths: seq<Path>, p: Path, j: ChildIngress, paths': seq<Path>, q: Path)
    requires i in ingresses && Plain(child, i, paths) && p in paths && j in ingresses && Plain(child, j, paths') && q in paths'
    ensures NumberedName(i, p) == NumberedName(j, q) && OwnEndpoints(child, i, p) != OwnEndpoints(child, j, q) ==>
      !RightEndpoints(cluster, suffix, child, ingresses)
  {
    if NumberedName(i, p) != NumberedName(j, q) || OwnEndpoints(child, i, p) == OwnEndpoints(child, j, q) {
      return;
    }
    var wants := RoundWants(cluster, suffix, child, ingresses);
    var m := PlainIsWanted(cluster, suffix, child, ingresses, i, paths, p, p);
    var n := PlainIsWanted(cluster, suffix, child, ingresses, j, paths', q, q);
    RoundRulesNameServices(cluster, suffix, child, ingresses);
    SharedNamesIff(wants, child.endpoints);
    assert wants[m].service == wants[n].service && Own(child.endpoints, wants[m]) != Own(child.endpoints, wants[n]);
  }

  lemma SinglePathIsOneBackend(child: ChildApi, i: ChildIngress, j: ChildIngress, p: Path, q: Path)
    requires Plain(child, i, [p]) && Plain(child, j, [q])
    ensures OneBackendEach([i, j])
  {
    assert PathsOf(i.rules[0]) == [p] && PathsOf(j.rules[0]) == [q];
  }

  /** The child namespace is not part of a Service name: equally named Ingresses with equally named backends collide. */
  lemma NamespacesShareServices(cluster: string, suffix: string, child: ChildApi, i: ChildIngress, j: ChildIngress, p: Path, q: Path)
    requires Plain(child, i, [p]) && Plain(child, j, [q]) && i.name == j.name && p.backend == q.backend
    requires OwnEndpoints(child, i, p) != OwnEndpoints(child, j, q)
    ensures OneBackendEach([i, j]) && !RightEndpoints(cluster, suffix, child, [i, j])
  {
    SinglePathIsOneBackend(child, i, j, p, q);
    SharedNameMixesEndpoints(cluster, suffix, child, [i, j], i, [p], p, j, [q], q);
  }

  lemma DashesJoin(a: string, b: string, c: string, port: nat)
    ensures ServiceText(a, b + "-" + c, port) == ServiceText(a + "-" + b, c, port)
  {
    assert "ing-" + a + "-" + (b + "-" + c) == "ing-" + (a + "-" + b) + "-" + c;
  }

  /** Dashes do not separate: Ingress "a" with backend "b-c" and Ingress "a-b" with backend "c" collide, within one namespace and
      with nothing truncated. */
  lemma DashesShareServices(cluster: string, suffix: string, child: ChildApi, i: ChildIngress, j: ChildIngress, p: Path, q: Path, b: string)
    requires Plain(child, i, [p]) && Plain(child, j, [q])
    requires p.backend.value.service == b + "-" + q.backend.value.service && j.name == i.name + "-" + b
    requires p.backend.value.number == q.backend.value.number && OwnEndpoints(child, i, p) != OwnEndpoints(child, j, q)
    ensures OneBackendEach([i, j]) && !RightEndpoints(cluster, suffix, child, [i, j])
  {
    DashesJoin(i.name, b, q.backend.value.service, p.backend.value.number);
    SinglePathIsOneBackend(child, i, j, p, q);
    SharedNameMixesEndpoints(cluster, suffix, child, [i, j], i, [p], p, j, [q], q);
  }

  const OTHER := ChildSubset([Address("10.0.0.1", "", None)], [])

  /** One such input, spelled out. */
  lemma CollisionExample(cluster: string, suffix: string) returns (child: ChildApi, i: ChildIngress, j: ChildIngress)
    ensures i.namespace == j.namespace && OneBackendEach([i, j]) && !RightEndpoints(cluster, suffix, child, [i, j])
  {
    child := ChildApi((ns, name) => Some(ChildService([])), (ns, name) => if name == "c" then None else Some([OTHER]));
    var p, q := Path("/", "", Some(Backend("b-c", 80, ""))), Path("/", "", Some(Backend("c", 80, "")));
    i := ChildIngress("ns", "a", Some(INGRESS_CLASS), [Rule(Some([p]))]);
    j := ChildIngress("ns", "a-b", Some(INGRESS_CLASS), [Rule(Some([q]))]);
    assert "b-c" == "b" + "-" + "c" && "a-b" == "a" + "-" + "b" && |"b-c"| != |"c"|;
    assert |OwnEndpoints(child, i, p)| == 1 && OwnEndpoints(child, j, q) == [];
    DashesShareServices(cluster, suffix, child, i, j, p, q, "b");
  }

  /** With two backends the pairing is wrong: the second Service is emitted with the Endpoints of the first one. */
  lemma TwoBackendsMixEndpoints(cluster: string, suffix: string, child: ChildApi, i: ChildIngress, p: Path, q: Path)
    requires Plain(child, i, [p, q])
    ensures assert p in [p, q] && q in [p, q]; NumberedName(i, p) != NumberedName(i, q) ==>
      && HostEndpoints(NumberedName(i, q), OwnEndpoints(child, i, p)) in Mirror(RoundWants(cluster, suffix, child, [i]))
      && (OwnEndpoints(child, i, p) != OwnEndpoints(child, i, q) ==> !RightEndpoints(cluster, suffix, child, [i]))
  {
    if NumberedName(i, p) == NumberedName(i, q) {
      return;
    }
    var naming := NamingFor(cluster, suffix);
    var e, wants := EntryFor(child, i, p), RoundWants(cluster, suffix, child, [i]);
    assert p in PathsOf(i.rules[0]) && q in PathsOf(i.rules[0]);
    WantFields(cluster, suffix, e, p);
    WantFields(cluster, suffix, e, q);
    SecondIsEmitted(naming, child, i, p, q);
    var m := PlainIsWanted(cluster, suffix, child, [i], i, [p, q], q, q);
    RoundRulesNameServices(cluster, suffix, child, [i]);
    var o :| 0 <= o < |Mirror(wants)| && Mirror(wants)[o] == HostEndpoints(NumberedName(i, q), OwnEndpoints(child, i, p));
    assert Mirror(wants)[o].name == wants[m].rule.service;
  }

  lemma SecondIsEmitted(naming: Naming, child: ChildApi, i: ChildIngress, p: Path, q: Path)
    requires i.rules == [Rule(Some([p, q]))] && Mirrored(i) && Collects(child, i, p) && q.backend.Some?
    requires p.backend.value.number > 0 && q.backend.value.number > 0
    requires var e := EntryFor(child, i, p); naming(e, p, p.backend.value.number).service != naming(e, q, q.backend.value.number).service
    ensures var w := naming(EntryFor(child, i, p), q, q.backend.value.number);
      HostEndpoints(w.service, Stripped(w.endpoints)) in Mirror(WantsOf(naming, Collected(child, [i])))
  {
    var e, entries := EntryFor(child, i, p), Collected(child, [i]);
    var wants := WantsOf(naming, entries);
    var first, second := naming(e, p, p.backend.value.number), naming(e, q, q.backend.value.number);
    StartsWith(child, i, p, q);
    WantsStart(naming, entries, e, p, q);
    FirstTwo(wants, first, second);
    PairsAt(Firsts(wants));
    assert Firsts(wants)[1] == second;
    assert Mirror(wants)[3] == HostEndpoints(second.service, Stripped(second.endpoints));
  }

  /** The first entry of such an Ingress is the one read for its first path. */
  lemma StartsWith(child: ChildApi, i: ChildIngress, p: Path, q: Path)
    requires i.rules == [Rule(Some([p, q]))] && Mirrored(i) && Collects(child, i, p)
    ensures Collected(child, [i]) != [] && Collected(child, [i])[0] == EntryFor(child, i, p)
    ensures forall e :: e in Collected(child, [i]) ==> e.ingress == i
  {
    assert [p, q][..1] == [p] && [p][..0] == [];
    assert EntriesOfPaths(child, i, [p]) == [EntryFor(child, i, p)];
    assert EntriesOfPaths(child, i, [p, q]) == [EntryFor(child, i, p)] + (if Collects(child, i, q) then [EntryFor(child, i, q)] else []);
    assert EntriesOfRules(child, i, [Rule(Some([p, q]))]) == [] + EntriesOfPaths(child, i, [p, q]);
    assert Collected(child, [i]) == [] + EntriesOfRules(child, i, i.rules);
  }

  lemma {:induction false} WantsStart(naming: Naming, entries: seq<Entry>, e: Entry, p: Path, q: Path)
    requires entries != [] && entries[0] == e && Mirrored(e.ingress) && e.ingress.rules == [Rule(Some([p, q]))]
    requires p.backend.Some? && q.backend.Some? && p.backend.value.number > 0 && q.backend.value.number > 0
    ensures [naming(e, p, p.backend.value.number), naming(e, q, q.backend.value.number)] <= WantsOf(naming, entries)
    decreases |entries|
  {
    if |entries| == 1 {
      var first, second := naming(e, p, p.backend.value.number), naming(e, q, q.backend.value.number);
      assert [p, q][..1] == [p] && [p][..0] == [];
      assert WantsOfPaths(naming, e, [p]) == [first];
      assert WantsOfPaths(naming, e, [p, q]) == [first] + [second];
      assert WantsOfRules(naming, e, e.ingress.rules) == [] + WantsOfPaths(naming, e, [p, q]);
      assert entries[..0] == [] && WantsOf(naming, entries) == [] + WantsOfRules(naming, e, e.ingress.rules);
    } else {
      WantsStart(naming, entries[..|entries| - 1], e, p, q);
    }
  }

  lemma {:induction false} FirstTwo(wants: seq<Want>, first: Want, second: Want)
    requires [first, second] <= wants && first.service != second.service
    ensures [first, second] <= Firsts(wants)
  {
    if |wants| == 2 {
      assert wants == [first, second] && wants[..1] == [first] && [first][..0] == [];
      assert Firsts([first]) == [first];
      assert Firsts(wants) == [first] + [second];
    } else {
      assert [first, second] <= wants[..|wants| - 1];
      FirstTwo(wants[..|wants| - 1], first, second);
    }
  }
}
