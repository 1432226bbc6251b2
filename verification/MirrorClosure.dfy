/** What the assembled mirror guarantees: references are closed, names are unique, nothing is lost, and a rule's port is its
    Service's port unless names were truncated into each other. */
module MirrorClosure {
  import opened Api
  import opened HostObjects
  import opened MirrorAssembly

  // ---- Services and Endpoints --------------------------------------------------------------------

  lemma {:induction false} PairsAt(firsts: seq<Want>)
    ensures |PairsOf(firsts)| == 2 * |firsts|
    ensures forall i :: 0 <= i < |firsts| ==>
      PairsOf(firsts)[2 * i] == HostService(firsts[i].service, firsts[i].port)
      && PairsOf(firsts)[2 * i + 1] == HostEndpoints(firsts[i].service, Stripped(firsts[i].endpoints))
  {
    if firsts != [] {
      PairsAt(firsts[..|firsts| - 1]);
    }
  }

  predicate DistinctServices(wants: seq<Want>) {
    forall i, j :: 0 <= i < j < |wants| ==> wants[i].service != wants[j].service
  }

  /** i is the first position that asks for its Service name. */
  predicate IsFirst(wants: seq<Want>, i: int) {
    0 <= i < |wants| && forall j :: 0 <= j < i ==> wants[j].service != wants[i].service
  }

  lemma {:induction false} FirstsAreDistinct(wants: seq<Want>)
    ensures DistinctServices(Firsts(wants))
  {
    if wants != [] {
      FirstsAreDistinct(wants[..|wants| - 1]);
    }
  }

  /** No name is lost. */
  lemma {:induction false} FirstsNameAll(wants: seq<Want>, i: nat)
    requires i < |wants|
    ensures NamesService(Firsts(wants), wants[i].service)
    decreases |wants|
  {
    var before, last := wants[..|wants| - 1], wants[|wants| - 1];
    var init, all := Firsts(before), Firsts(wants);
    if i < |before| {
      FirstsNameAll(before, i);
      var k :| 0 <= k < |init| && init[k].service == wants[i].service;
      assert all[k] == init[k];
    } else if !NamesService(init, last.service) {
      assert all[|init|] == last;
    }
  }

  /** The one that is kept came first. */
  lemma {:induction false} FirstsCameFirst(wants: seq<Want>, k: nat) returns (i: nat)
    requires k < |Firsts(wants)|
    ensures IsFirst(wants, i) && wants[i] == Firsts(wants)[k]
    decreases |wants|
  {
    var before, last := wants[..|wants| - 1], wants[|wants| - 1];
    var init := Firsts(before);
    if k < |init| {
      i := FirstsCameFirst(before, k);
    } else {
      i := |wants| - 1;
      forall j | 0 <= j < i ensures wants[j].service != last.service {
        FirstsNameAll(before, j);
        var m :| 0 <= m < |init| && init[m].service == before[j].service;
      }
    }
  }

  // ---- Ingresses ---------------------------------------------------------------------------------

  lemma {:induction false} OrderIsDistinct(wants: seq<Want>)
    ensures forall i, j :: 0 <= i < j < |Order(wants)| ==> Order(wants)[i] != Order(wants)[j]
    ensures forall i :: 0 <= i < |wants| ==> wants[i].ingress in Order(wants)
  {
    if wants != [] {
      OrderIsDistinct(wants[..|wants| - 1]);
      assert wants == wants[..|wants| - 1] + [wants[|wants| - 1]];
    }
  }

  /** The rules of an Ingress are the rules of the wants for it: none is invented and none is lost. */
  lemma {:induction false} RulesAreWanted(wants: seq<Want>, name: string, rule: HostRule)
    ensures rule in RulesFor(wants, name) <==> exists i :: 0 <= i < |wants| && wants[i].ingress == name && wants[i].rule == rule
  {
    if wants != [] {
      var before := wants[..|wants| - 1];
      RulesAreWanted(before, name, rule);
      assert forall i :: 0 <= i < |before| ==> before[i] == wants[i];
      if exists i :: 0 <= i < |wants| && wants[i].ingress == name && wants[i].rule == rule {
        var i :| 0 <= i < |wants| && wants[i].ingress == name && wants[i].rule == rule;
        if i < |before| {
          assert before[i].ingress == name && before[i].rule == rule;
        }
      }
    }
  }

  // ---- closure -----------------------------------------------------------------------------------

  predicate SameName(a: HostObject, b: HostObject) {
    a.name == b.name && ((a.HostService? && b.HostService?) || (a.HostEndpoints? && b.HostEndpoints?) || (a.HostIngress? && b.HostIngress?))
  }

  /** No two objects of one kind share a name. */
  predicate NamesUnique(objects: seq<HostObject>) {
    forall i, j :: 0 <= i < j < |objects| ==> !SameName(objects[i], objects[j])
  }

  /** The Service and the Endpoints that a rule refers to are there, side by side. */
  predicate Served(objects: seq<HostObject>, rule: HostRule) {
    exists s :: 0 <= s < |objects| - 1 && objects[s].HostService? && objects[s].name == rule.service
      && objects[s + 1].HostEndpoints? && objects[s + 1].name == rule.service
  }

  predicate RulesNameTheirService(wants: seq<Want>) {
    forall i :: 0 <= i < |wants| ==> wants[i].rule.service == wants[i].service && wants[i].rule.port == wants[i].port
  }

  /** The Services and Endpoints come first, then the Ingresses. */
  lemma ObjectAt(wants: seq<Want>, o: nat)
    requires o < |Mirror(wants)|
    ensures var n := 2 * |Firsts(wants)|;
      && |PairsOf(Firsts(wants))| == n && |Mirror(wants)| == n + |Order(wants)|
      && (if o < n then !Mirror(wants)[o].HostIngress? && Mirror(wants)[o] == PairsOf(Firsts(wants))[o]
          else Mirror(wants)[o] == HostIngress(Order(wants)[o - n], RulesFor(wants, Order(wants)[o - n])))
  {
    PairsAt(Firsts(wants));
    if o < 2 * |Firsts(wants)| {
      PairAt(Firsts(wants), o);
    }
  }

  lemma MirrorIsUnique(wants: seq<Want>)
    ensures NamesUnique(Mirror(wants))
  {
    FirstsAreDistinct(wants);
    OrderIsDistinct(wants);
    forall i, j | 0 <= i < j < |Mirror(wants)| ensures !SameName(Mirror(wants)[i], Mirror(wants)[j]) {
      ObjectAt(wants, i);
      ObjectAt(wants, j);
      if j < 2 * |Firsts(wants)| {
        PairsAreUnique(Firsts(wants), i, j);
      }
    }
  }

  lemma PairsAreUnique(firsts: seq<Want>, i: nat, j: nat)
    requires DistinctServices(firsts) && i < j < 2 * |firsts|
    ensures |PairsOf(firsts)| == 2 * |firsts| && !SameName(PairsOf(firsts)[i], PairsOf(firsts)[j])
  {
    PairAt(firsts, i);
    PairAt(firsts, j);
  }

  lemma PairAt(firsts: seq<Want>, i: nat)
    requires i < 2 * |firsts|
    ensures |PairsOf(firsts)| == 2 * |firsts|
    ensures PairsOf(firsts)[i] == (
      if i % 2 == 0 then HostService(firsts[i / 2].service, firsts[i / 2].port)
      else HostEndpoints(firsts[i / 2].service, Stripped(firsts[i / 2].endpoints)))
  {
    PairsAt(firsts);
    if i % 2 == 0 {
      assert i == 2 * (i / 2);
    } else {
      assert i == 2 * (i / 2) + 1;
    }
  }

  lemma WantedIsServed(wants: seq<Want>, i: nat)
    requires i < |wants| && RulesNameTheirService(wants)
    ensures Served(Mirror(wants), wants[i].rule)
  {
    var firsts, objects := Firsts(wants), Mirror(wants);
    FirstsNameAll(wants, i);
    var k :| 0 <= k < |firsts| && firsts[k].service == wants[i].service;
    PairsAt(firsts);
    assert objects[2 * k].HostService? && objects[2 * k].name == wants[i].rule.service;
    assert objects[2 * k + 1].HostEndpoints? && objects[2 * k + 1].name == wants[i].rule.service;
  }

  /** Closure: names are unique per kind, and every rule of every Ingress has its Service and same-named Endpoints. */
  lemma MirrorIsClosed(wants: seq<Want>)
    requires RulesNameTheirService(wants)
    ensures NamesUnique(Mirror(wants))
    ensures forall i, r :: 0 <= i < |Mirror(wants)| && Mirror(wants)[i].HostIngress? && r in Mirror(wants)[i].rules ==> Served(Mirror(wants), r)
  {
    MirrorIsUnique(wants);
    forall i, r | 0 <= i < |Mirror(wants)| && Mirror(wants)[i].HostIngress? && r in Mirror(wants)[i].rules ensures Served(Mirror(wants), r) {
      ObjectAt(wants, i);
      RulesAreWanted(wants, Mirror(wants)[i].name, r);
      var m :| 0 <= m < |wants| && wants[m].rule == r;
      WantedIsServed(wants, m);
    }
  }

  /** Nothing is lost: every want has its rule in an Ingress of its name. */
  lemma EveryWantIsMirrored(wants: seq<Want>, i: nat)
    requires i < |wants|
    ensures exists o ::
      0 <= o < |Mirror(wants)| && Mirror(wants)[o].HostIngress? && Mirror(wants)[o].name == wants[i].ingress && wants[i].rule in Mirror(wants)[o].rules
  {
    OrderIsDistinct(wants);
    PairsAt(Firsts(wants));
    var k :| 0 <= k < |Order(wants)| && Order(wants)[k] == wants[i].ingress;
    RulesAreWanted(wants, wants[i].ingress, wants[i].rule);
    var o := 2 * |Firsts(wants)| + k;
    assert Mirror(wants)[o] == IngressesOf(wants, Order(wants))[k];
  }

  // ---- ports -------------------------------------------------------------------------------------

  /** A Service name decides its port. */
  predicate PortsFollowNames(wants: seq<Want>) {
    forall i, j :: 0 <= i < |wants| && 0 <= j < |wants| && wants[i].service == wants[j].service ==> wants[i].port == wants[j].port
  }

  /** Every rule's port is the port of the Service that the rule names. */
  predicate PortsAgree(objects: seq<HostObject>) {
    forall i, s, r ::
      0 <= i < |objects| && objects[i].HostIngress? && r in objects[i].rules && 0 <= s < |objects| && objects[s].HostService? ==>
        objects[s].name == r.service ==> objects[s].port == r.port
  }

  /** Every emitted Service and Endpoints is made of the first want of its name. */
  lemma PairIsFirst(wants: seq<Want>, o: nat) returns (i: nat)
    requires o < |Mirror(wants)| && !Mirror(wants)[o].HostIngress?
    ensures IsFirst(wants, i)
    ensures Mirror(wants)[o] == HostService(wants[i].service, wants[i].port)
      || Mirror(wants)[o] == HostEndpoints(wants[i].service, Stripped(wants[i].endpoints))
  {
    ObjectAt(wants, o);
    PairAt(Firsts(wants), o);
    i := FirstsCameFirst(wants, o / 2);
  }

  /** Ports agree exactly when no Service name is asked for with two ports. */
  lemma PortsAgreeIff(wants: seq<Want>)
    requires RulesNameTheirService(wants)
    ensures PortsAgree(Mirror(wants)) <==> PortsFollowNames(wants)
  {
    if PortsFollowNames(wants) {
      NamesGivePorts(wants);
    }
    if PortsAgree(Mirror(wants)) {
      forall i, j | 0 <= i < |wants| && 0 <= j < |wants| && wants[i].service == wants[j].service ensures wants[i].port == wants[j].port {
        AgreeWithService(wants, i);
        AgreeWithService(wants, j);
        MirrorIsUnique(wants);
      }
    }
  }

  lemma NamesGivePorts(wants: seq<Want>)
    requires RulesNameTheirService(wants) && PortsFollowNames(wants)
    ensures PortsAgree(Mirror(wants))
  {
    var objects := Mirror(wants);
    forall i, s, r | 0 <= i < |objects| && objects[i].HostIngress? && r in objects[i].rules
      && 0 <= s < |objects| && objects[s].HostService? && objects[s].name == r.service
      ensures objects[s].port == r.port
    {
      ObjectAt(wants, i);
      RulesAreWanted(wants, objects[i].name, r);
      var m :| 0 <= m < |wants| && wants[m].rule == r;
      var n := PairIsFirst(wants, s);
      assert wants[m].service == wants[n].service;
    }
  }

  lemma AgreeWithService(wants: seq<Want>, i: nat)
    requires i < |wants| && RulesNameTheirService(wants) && PortsAgree(Mirror(wants))
    ensures exists s :: 0 <= s < |Mirror(wants)| && Mirror(wants)[s] == HostService(wants[i].service, wants[i].port)
  {
    EveryWantIsMirrored(wants, i);
    WantedIsServed(wants, i);
    var s :| 0 <= s < |Mirror(wants)| - 1 && Mirror(wants)[s].HostService? && Mirror(wants)[s].name == wants[i].rule.service;
    assert Mirror(wants)[s].port == wants[i].rule.port;
  }

  // ---- Endpoints ---------------------------------------------------------------------------------

  /** The Endpoints of a child Service, by namespace and name. */
  type ChildEndpoints = (string, string) -> Option<seq<ChildSubset>>

  function Own(truth: ChildEndpoints, w: Want): seq<Subset> {
    Stripped(truth(w.backend.0, w.backend.1))
  }

  /** Every rule is served by the Endpoints of its own backend: the Endpoints object that carries the name in the rule holds the
      stripped Endpoints of the child Service that the rule's path names. */
  predicate EndpointsAgree(wants: seq<Want>, objects: seq<HostObject>, truth: ChildEndpoints) {
    forall i, o :: 0 <= i < |wants| && 0 <= o < |objects| && objects[o].HostEndpoints? ==>
      objects[o].name == wants[i].rule.service ==> objects[o].subsets == Own(truth, wants[i])
  }

  /** No Service name is first asked for with other Endpoints than those of a rule that uses it. */
  ghost predicate FirstAskedRight(wants: seq<Want>, truth: ChildEndpoints) {
    forall i, j :: 0 <= i < |wants| && IsFirst(wants, j) && wants[j].service == wants[i].service ==> Stripped(wants[j].endpoints) == Own(truth, wants[i])
  }

  lemma FirstOfName(wants: seq<Want>, i: nat) returns (j: nat, k: nat)
    requires i < |wants|
    ensures IsFirst(wants, j) && wants[j].service == wants[i].service && k < |Firsts(wants)| && Firsts(wants)[k] == wants[j]
  {
    FirstsNameAll(wants, i);
    k :| 0 <= k < |Firsts(wants)| && Firsts(wants)[k].service == wants[i].service;
    j := FirstsCameFirst(wants, k);
  }

  lemma EndpointsOf(firsts: seq<Want>, k: nat)
    requires k < |firsts|
    ensures 2 * k + 1 < |PairsOf(firsts)| && PairsOf(firsts)[2 * k + 1] == HostEndpoints(firsts[k].service, Stripped(firsts[k].endpoints))
  {
    PairsAt(firsts);
  }

  /** What a first want asks for is emitted. */
  lemma FirstIsEmitted(wants: seq<Want>, j: nat) returns (o: nat)
    requires IsFirst(wants, j)
    ensures o < |Mirror(wants)| && Mirror(wants)[o] == HostEndpoints(wants[j].service, Stripped(wants[j].endpoints))
  {
    var m, k := FirstOfName(wants, j);
    assert m == j;
    o := 2 * k + 1;
    EndpointsOf(Firsts(wants), k);
    assert Mirror(wants)[o] == PairsOf(Firsts(wants))[o];
  }

  /** Endpoints agree exactly when every name is first asked for with the Endpoints of all the rules that use it. */
  lemma EndpointsAgreeIff(wants: seq<Want>, truth: ChildEndpoints)
    requires RulesNameTheirService(wants)
    ensures EndpointsAgree(wants, Mirror(wants), truth) <==> FirstAskedRight(wants, truth)
  {
    var objects := Mirror(wants);
    if FirstAskedRight(wants, truth) {
      forall i, o | 0 <= i < |wants| && 0 <= o < |objects| && objects[o].HostEndpoints? && objects[o].name == wants[i].rule.service
        ensures objects[o].subsets == Own(truth, wants[i])
      {
        var j := PairIsFirst(wants, o);
      }
    }
    if EndpointsAgree(wants, objects, truth) {
      forall i, j | 0 <= i < |wants| && IsFirst(wants, j) && wants[j].service == wants[i].service
        ensures Stripped(wants[j].endpoints) == Own(truth, wants[i])
      {
        var o := FirstIsEmitted(wants, j);
      }
    }
  }

  /** Every want comes with the Endpoints of its own backend. */
  predicate WantsTheirOwn(wants: seq<Want>, truth: ChildEndpoints) {
    forall i :: 0 <= i < |wants| ==> wants[i].endpoints == truth(wants[i].backend.0, wants[i].backend.1)
  }

  /** Wants that share a Service name share the Endpoints of their backends. */
  predicate NamesShareEndpoints(wants: seq<Want>, truth: ChildEndpoints) {
    forall i, j :: 0 <= i < |wants| && 0 <= j < |wants| && wants[i].service == wants[j].service ==> Own(truth, wants[i]) == Own(truth, wants[j])
  }

  /** Sharing a name with other Endpoints always breaks agreement, however the wants were collected; and when each want came
      with its own Endpoints nothing else does. */
  lemma SharedNamesIff(wants: seq<Want>, truth: ChildEndpoints)
    requires RulesNameTheirService(wants)
    ensures EndpointsAgree(wants, Mirror(wants), truth) ==> NamesShareEndpoints(wants, truth)
    ensures WantsTheirOwn(wants, truth) ==> (EndpointsAgree(wants, Mirror(wants), truth) <==> NamesShareEndpoints(wants, truth))
  {
    EndpointsAgreeIff(wants, truth);
    if FirstAskedRight(wants, truth) {
      forall i, j | 0 <= i < |wants| && 0 <= j < |wants| && wants[i].service == wants[j].service ensures Own(truth, wants[i]) == Own(truth, wants[j]) {
        var m, k := FirstOfName(wants, i);
      }
    }
  }
}
