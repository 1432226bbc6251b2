/** Assembling host objects from what the visited paths ask for: one Service with Endpoints per name, one Ingress per name. */
module MirrorAssembly {
  import opened Api
  import opened HostObjects

  datatype EndpointPort = EndpointPort(name: string, protocol: string, port: int)

  datatype ChildSubset = ChildSubset(addresses: seq<Address>, ports: seq<EndpointPort>)

  /** What one visited path asks for: a host Service with a port and the Endpoints at hand, and a rule in a host Ingress.
      `backend` is the child namespace and Service that the path names. */
  datatype Want = Want(
    service: string, port: int, endpoints: Option<seq<ChildSubset>>, ingress: string, rule: HostRule, backend: (string, string))

  // ---- the result, declared ----------------------------------------------------------------------

  predicate NamesService(wants: seq<Want>, name: string) {
    exists i :: 0 <= i < |wants| && wants[i].service == name
  }

  /** The first want of each Service name, in order. */
  function Firsts(wants: seq<Want>): seq<Want> {
    if wants == [] then []
    else
      var init, last := Firsts(wants[..|wants| - 1]), wants[|wants| - 1];
      if NamesService(init, last.service) then init else init + [last]
  }

  /** The Ingress names, in order of first occurrence. */
  function Order(wants: seq<Want>): seq<string> {
    if wants == [] then []
    else
      var init, last := Order(wants[..|wants| - 1]), wants[|wants| - 1];
      if last.ingress in init then init else init + [last.ingress]
  }

  function RulesFor(wants: seq<Want>, name: string): seq<HostRule> {
    if wants == [] then []
    else
      var init, last := RulesFor(wants[..|wants| - 1], name), wants[|wants| - 1];
      if last.ingress == name then init + [last.rule] else init
  }

  function StrippedPorts(ports: seq<EndpointPort>): seq<(string, int)> {
    seq(|ports|, i requires 0 <= i < |ports| => (ports[i].protocol, ports[i].port))
  }

  function Stripped(source: Option<seq<ChildSubset>>): seq<Subset> {
    if source.None? then []
    else seq(|source.value|, i requires 0 <= i < |source.value| => Subset(source.value[i].addresses, StrippedPorts(source.value[i].ports)))
  }

  /** The same addresses and ports, subset by subset, without port names; nothing for Endpoints that could not be read. */
  predicate Unnamed(source: Option<seq<ChildSubset>>, subsets: seq<Subset>) {
    if source.None? then subsets == []
    else
      && |subsets| == |source.value|
      && forall i :: 0 <= i < |subsets| ==>
        && subsets[i].addresses == source.value[i].addresses && |subsets[i].ports| == |source.value[i].ports|
        && forall j :: 0 <= j < |subsets[i].ports| ==>
          subsets[i].ports[j].0 == source.value[i].ports[j].protocol && subsets[i].ports[j].1 == source.value[i].ports[j].port
  }

  lemma StrippedIsUnnamed(source: Option<seq<ChildSubset>>, subsets: seq<Subset>)
    ensures subsets == Stripped(source) <==> Unnamed(source, subsets)
  {
    if Unnamed(source, subsets) && source.Some? {
      forall i | 0 <= i < |subsets| ensures subsets[i] == Stripped(source)[i] {
        assert subsets[i].ports == StrippedPorts(source.value[i].ports);
      }
      assert subsets == Stripped(source);
    }
  }

  function PairOf(w: Want): seq<HostObject> {
    [HostService(w.service, w.port), HostEndpoints(w.service, Stripped(w.endpoints))]
  }

  /** One Service and one same-named Endpoints per first want. */
  function PairsOf(firsts: seq<Want>): seq<HostObject> {
    if firsts == [] then [] else PairsOf(firsts[..|firsts| - 1]) + PairOf(firsts[|firsts| - 1])
  }

  function IngressesOf(wants: seq<Want>, order: seq<string>): (r: seq<HostObject>)
    ensures |r| == |order| && forall i :: 0 <= i < |order| ==> r[i] == HostIngress(order[i], RulesFor(wants, order[i]))
  {
    seq(|order|, i requires 0 <= i < |order| => HostIngress(order[i], RulesFor(wants, order[i])))
  }

  function Mirror(wants: seq<Want>): seq<HostObject> {
    PairsOf(Firsts(wants)) + IngressesOf(wants, Order(wants))
  }

  // ---- the result, built -------------------------------------------------------------------------

  method MirrorEndpoints(source: Option<seq<ChildSubset>>) returns (subsets: seq<Subset>)
    ensures subsets == Stripped(source) && Unnamed(source, subsets)
  {
    StrippedIsUnnamed(source, Stripped(source));
    subsets := [];
    if source.None? {
      return;
    }
    for i := 0 to |source.value|
      invariant |subsets| == i
      invariant forall j :: 0 <= j < i ==> subsets[j] == Stripped(source)[j]
    {
      var s := source.value[i];
      var addresses: seq<Address> := [];
      for j := 0 to |s.addresses|
        invariant addresses == s.addresses[..j]
      {
        addresses := addresses + [s.addresses[j]];
      }
      var ports: seq<(string, int)> := [];
      for j := 0 to |s.ports|
        invariant ports == StrippedPorts(s.ports)[..j]
      {
        ports := ports + [(s.ports[j].protocol, s.ports[j].port)];
      }
      subsets := subsets + [Subset(addresses, ports)];
    }
  }

  /** The variables of the rendering: emitted objects, emitted Service names, rules by Ingress name, Ingress names. */
  datatype Draft = Draft(result: seq<HostObject>, seen: set<string>, pending: map<string, seq<HostRule>>, order: seq<string>)

  ghost predicate TracksServices(result: seq<HostObject>, seen: set<string>, wants: seq<Want>) {
    result == PairsOf(Firsts(wants)) && forall n :: n in seen <==> NamesService(Firsts(wants), n)
  }

  ghost predicate TracksRules(pending: map<string, seq<HostRule>>, order: seq<string>, wants: seq<Want>) {
    && order == Order(wants)
    && (forall n :: n in pending <==> n in order)
    && (forall n :: n in pending ==> pending[n] == RulesFor(wants, n))
  }

  ghost predicate Tracks(d: Draft, wants: seq<Want>) {
    TracksServices(d.result, d.seen, wants) && TracksRules(d.pending, d.order, wants)
  }

  lemma {:induction false} UnorderedHasNoRules(wants: seq<Want>, name: string)
    requires name !in Order(wants)
    ensures RulesFor(wants, name) == []
  {
    if wants != [] {
      UnorderedHasNoRules(wants[..|wants| - 1], name);
    }
  }

  lemma NamedAfter(wants: seq<Want>, w: Want, n: string)
    ensures NamesService(wants + [w], n) <==> NamesService(wants, n) || n == w.service
  {
    var all := wants + [w];
    assert all[|wants|] == w;
    assert forall i :: 0 <= i < |wants| ==> all[i] == wants[i];
  }

  /** A Service and its Endpoints are emitted once per name. */
  method AddService(result0: seq<HostObject>, seen0: set<string>, w: Want, ghost wants: seq<Want>)
    returns (result: seq<HostObject>, seen: set<string>)
    requires TracksServices(result0, seen0, wants)
    ensures TracksServices(result, seen, wants + [w])
  {
    ghost var all := wants + [w];
    assert all[..|all| - 1] == wants;
    result, seen := result0, seen0;
    if w.service !in seen {
      var subsets := MirrorEndpoints(w.endpoints);
      seen := seen + {w.service};
      result := result + [HostService(w.service, w.port), HostEndpoints(w.service, subsets)];
      ghost var firsts := Firsts(wants) + [w];
      assert firsts[..|firsts| - 1] == Firsts(wants);
      forall n ensures n in seen <==> NamesService(firsts, n) {
        NamedAfter(Firsts(wants), w, n);
      }
    }
  }

  /** A rule is appended to the Ingress of its name, which is opened when it is missing. */
  method AddRule(pending0: map<string, seq<HostRule>>, order0: seq<string>, w: Want, ghost wants: seq<Want>)
    returns (pending: map<string, seq<HostRule>>, order: seq<string>)
    requires TracksRules(pending0, order0, wants)
    ensures TracksRules(pending, order, wants + [w])
  {
    ghost var all := wants + [w];
    assert all[..|all| - 1] == wants;
    pending, order := pending0, order0;
    if w.ingress !in pending {
      UnorderedHasNoRules(wants, w.ingress);
      pending := pending[w.ingress := []];
      order := order + [w.ingress];
    }
    pending := pending[w.ingress := pending[w.ingress] + [w.rule]];
  }

  /** The body of the innermost loop. */
  method Add(before: Draft, w: Want, ghost wants: seq<Want>) returns (d: Draft)
    requires Tracks(before, wants)
    ensures Tracks(d, wants + [w])
  {
    var result, seen := AddService(before.result, before.seen, w, wants);
    var pending, order := AddRule(before.pending, before.order, w, wants);
    d := Draft(result, seen, pending, order);
  }

  /** The Ingresses are emitted last, in order. */
  method Finish(d: Draft, ghost wants: seq<Want>) returns (result: seq<HostObject>)
    requires Tracks(d, wants)
    ensures result == Mirror(wants)
  {
    result := d.result;
    for i := 0 to |d.order|
      invariant result == d.result + IngressesOf(wants, d.order)[..i]
    {
      result := result + [HostIngress(d.order[i], d.pending[d.order[i]])];
    }
  }
}
