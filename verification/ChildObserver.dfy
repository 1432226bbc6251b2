/** Observing a child cluster through its Host (internal/provider/k3k/child_observer.go). */
module ChildObserver {
  import opened Api
  import opened Text
  import Inventory
  import Lifecycle

  datatype Owner = Owner(kind: string, name: string, apiVersion: string)

  /** The child's kubeconfig Secret: its payload ("" if missing), its UID label ("" if missing) and its owners. */
  datatype Secret = Secret(kubeconfig: string, uid: string, owners: seq<Owner>)

  datatype Port = Port(port: int, nodePort: int)

  datatype StorageClass = StorageClass(provisioner: string, waitsForFirstConsumer: bool)

  /** What the Host answers; None is a failed read. */
  datatype Host = Host(secret: Option<Secret>, ports: Option<seq<Port>>, storageClass: Option<StorageClass>)

  datatype ChildNode = ChildNode(name: string, readiness: seq<(string, bool)>)

  /** What a child API endpoint answers: a client is made, /readyz is asked, nodes are listed, the storage class is ensured. */
  datatype Endpoint = Endpoint(connects: bool, ready: bool, nodes: Option<seq<ChildNode>>, storage: bool)

  /** The libraries and the network: host:port text, kubeconfig rewriting, and the endpoints by URL. */
  datatype Outside = Outside(join: (string, int) -> string, rewrite: (string, string) -> Option<string>, endpoints: string -> Endpoint)

  datatype Observation = Observation(
    kubeconfig: string, nodePort: int, endpoint: string, apiReady: bool, nodeName: string, nodeReady: bool, storageReady: bool, hasClient: bool)

  // ---- the Host side -----------------------------------------------------------------------------

  predicate OwnedByK3k(owners: seq<Owner>, name: string) {
    exists i :: 0 <= i < |owners| && owners[i].kind == "Cluster" && owners[i].name == name && HasPrefix(owners[i].apiVersion, "k3k.io/")
  }

  /** A Secret is trusted by its UID label or, without one, by its K3k owner. */
  predicate Trusted(s: Secret, uid: string, name: string) {
    s.kubeconfig != "" && (s.uid == "" || s.uid == uid) && (s.uid == "" ==> OwnedByK3k(s.owners, name))
  }

  predicate ServesHttps(p: Port) {
    p.port == 443 && p.nodePort > 0
  }

  predicate FirstHttps(ports: seq<Port>, i: int) {
    0 <= i < |ports| && ServesHttps(ports[i]) && forall j :: 0 <= j < i ==> !ServesHttps(ports[j])
  }

  /** What the Host side amounts to: no flag is set yet. */
  ghost predicate IsBase(host: Host, hostNamespace: string, name: string, uid: string, base: Observation) {
    && hostNamespace != "" && name != "" && host.secret.Some? && Trusted(host.secret.value, uid, name) && host.ports.Some?
    && exists i :: FirstHttps(host.ports.value, i) && base == Bare(host.secret.value.kubeconfig, host.ports.value[i].nodePort)
  }

  function Bare(kubeconfig: string, nodePort: int): Observation {
    Observation(kubeconfig, nodePort, "", false, "", false, false, false)
  }

  method IsOwnedByK3k(owners: seq<Owner>, name: string) returns (r: bool)
    ensures r == OwnedByK3k(owners, name)
  {
    for i := 0 to |owners|
      invariant forall j :: 0 <= j < i ==> !(owners[j].kind == "Cluster" && owners[j].name == name && HasPrefix(owners[j].apiVersion, "k3k.io/"))
    {
      if owners[i].kind == "Cluster" && owners[i].name == name && HasPrefix(owners[i].apiVersion, "k3k.io/") {
        return true;
      }
    }
    r := false;
  }

  /** Ok exactly when the Secret is trusted and the Service has an HTTPS NodePort; then the first one. */
  method ObserveResources(host: Host, hostNamespace: string, name: string, uid: string) returns (r: Result<Observation>)
    ensures r.Ok? <==> exists base :: IsBase(host, hostNamespace, name, uid, base)
    ensures r.Ok? ==> IsBase(host, hostNamespace, name, uid, r.value)
    ensures r.Ok? ==>
      && host.secret.Some? && r.value.kubeconfig == host.secret.value.kubeconfig != ""
      && (host.secret.value.uid == uid
          || (host.secret.value.uid == "" && exists o :: o in host.secret.value.owners && o.kind == "Cluster" && o.name == name && "k3k.io/" <= o.apiVersion))
      && host.ports.Some? && Port(443, r.value.nodePort) in host.ports.value && r.value.nodePort > 0
      && !r.value.apiReady && !r.value.nodeReady && !r.value.storageReady
  {
    if hostNamespace == "" || name == "" {
      return Err("resolved Host namespace and K3k cluster name are required");
    }
    if host.secret.None? {
      return Err("read Child kubeconfig Secret");
    }
    var secret := host.secret.value;
    var owned := IsOwnedByK3k(secret.owners, name);
    if secret.kubeconfig == "" || (secret.uid != "" && secret.uid != uid) || (secret.uid == "" && !owned) {
      return Err("child kubeconfig Secret is not usable");
    }
    if host.ports.None? {
      return Err("read Child API Service");
    }
    var ports := host.ports.value;
    for i := 0 to |ports|
      invariant forall j :: 0 <= j < i ==> !ServesHttps(ports[j])
    {
      if ports[i].port == 443 && ports[i].nodePort > 0 {
        assert FirstHttps(ports, i);
        r := Ok(Bare(secret.kubeconfig, ports[i].nodePort));
        assert IsBase(host, hostNamespace, name, uid, r.value);
        return;
      }
    }
    return Err("child API Service has no NodePort for port 443");
  }

  // ---- the child side ----------------------------------------------------------------------------

  predicate FirstReady(nodes: seq<ChildNode>, i: int) {
    0 <= i < |nodes| && Inventory.NodeReady(nodes[i].readiness) && forall j :: 0 <= j < i ==> !Inventory.NodeReady(nodes[j].readiness)
  }

  method ReadyNode(nodes: seq<ChildNode>) returns (r: Option<ChildNode>)
    ensures r.None? <==> forall j :: 0 <= j < |nodes| ==> !Inventory.NodeReady(nodes[j].readiness)
    ensures r.Some? ==> exists i :: FirstReady(nodes, i) && r.value == nodes[i]
  {
    for i := 0 to |nodes|
      invariant forall j :: 0 <= j < i ==> !Inventory.NodeReady(nodes[j].readiness)
    {
      var ready := Inventory.IsNodeReady(nodes[i].readiness);
      if ready {
        assert FirstReady(nodes, i);
        return Some(nodes[i]);
      }
    }
    r := None;
  }

  predicate Up(e: Endpoint) {
    e.connects && e.ready && e.storage && e.nodes.Some?
    && exists j :: 0 <= j < |e.nodes.value| && Inventory.NodeReady(e.nodes.value[j].readiness)
  }

  function Url(out: Outside, address: string, nodePort: int): string {
    "https://" + out.join(address, nodePort)
  }

  predicate Usable(out: Outside, base: Observation, address: string) {
    out.rewrite(base.kubeconfig, Url(out, address, base.nodePort)).Some? && Up(out.endpoints(Url(out, address, base.nodePort)))
  }

  /** The address that is reached: everything before it is down, and its kubeconfig can be rewritten. */
  predicate Reaches(out: Outside, base: Observation, addresses: seq<string>, i: int) {
    && 0 <= i < |addresses| && Usable(out, base, addresses[i])
    && forall j :: 0 <= j < i ==>
         out.rewrite(base.kubeconfig, Url(out, addresses[j], base.nodePort)).Some? && !Up(out.endpoints(Url(out, addresses[j], base.nodePort)))
  }

  /** What an observation that is not an error says: all three flags, of one endpoint. */
  ghost predicate Complete(out: Outside, base: Observation, address: string, r: Observation) {
    var url := Url(out, address, base.nodePort);
    && r.apiReady && r.nodeReady && r.storageReady && r.hasClient
    && r.endpoint == url && r.nodePort == base.nodePort && out.rewrite(base.kubeconfig, url) == Some(r.kubeconfig)
    && out.endpoints(url).nodes.Some?
    && exists i :: FirstReady(out.endpoints(url).nodes.value, i) && out.endpoints(url).nodes.value[i].name == r.nodeName
  }

  /** Tries the addresses in order; flags are set together, for the first endpoint that passes every probe. */
  method ProbeAddresses(out: Outside, base: Observation, addresses: seq<string>) returns (r: Result<Observation>)
    ensures r.Ok? <==> exists i :: Reaches(out, base, addresses, i)
    ensures r.Ok? ==> exists i :: Reaches(out, base, addresses, i) && Complete(out, base, addresses[i], r.value)
  {
    for i := 0 to |addresses|
      invariant forall j :: 0 <= j < i ==>
        out.rewrite(base.kubeconfig, Url(out, addresses[j], base.nodePort)).Some? && !Up(out.endpoints(Url(out, addresses[j], base.nodePort)))
    {
      var url := Url(out, addresses[i], base.nodePort);
      var rewritten := out.rewrite(base.kubeconfig, url);
      if rewritten.None? {
        return Err("rewrite kubeconfig");
      }
      var child := out.endpoints(url);
      if child.connects && child.ready && child.nodes.Some? {
        var node := ReadyNode(child.nodes.value);
        if node.Some? && child.storage {
          assert Reaches(out, base, addresses, i);
          return Ok(Observation(rewritten.value, base.nodePort, url, true, node.value.name, true, true, true));
        }
      }
    }
    r := Err("child API probe failed for all addresses");
  }

  predicate Certified(sc: StorageClass) {
    sc.provisioner == "topolvm.io" && sc.waitsForFirstConsumer
  }

  /** All or error: an observation is reported only with the API, a node and the storage class up. */
  method Observe(out: Outside, host: Host, hostNamespace: string, name: string, uid: string, addresses: seq<string>)
    returns (r: Result<Observation>)
    ensures r.Ok? <==>
      && host.storageClass.Some? && Certified(host.storageClass.value)
      && exists base, i :: IsBase(host, hostNamespace, name, uid, base) && Reaches(out, base, addresses, i)
    ensures r.Ok? ==> exists base, i ::
      IsBase(host, hostNamespace, name, uid, base) && Reaches(out, base, addresses, i) && Complete(out, base, addresses[i], r.value)
  {
    var resources := ObserveResources(host, hostNamespace, name, uid);
    if resources.Err? {
      return resources;
    }
    if host.storageClass.None? || host.storageClass.value.provisioner != "topolvm.io" || !host.storageClass.value.waitsForFirstConsumer {
      return Err("host StorageClass is not a certified TopoLVM WaitForFirstConsumer class");
    }
    if addresses == [] {
      return Err("at least one Child API address is required");
    }
    r := ProbeAddresses(out, resources.value, addresses);
    assert forall base :: IsBase(host, hostNamespace, name, uid, base) ==> base == resources.value;
  }

  // ---- what the lifecycle makes of it ------------------------------------------------------------

  /** The controller's reading of an observation; `parses` says whether the endpoint is a URL with a host. */
  function ProbeOf(r: Result<Observation>, parses: bool): Lifecycle.Probe {
    if r.Err? then Lifecycle.ProbeFailed
    else
      var o := r.value;
      Lifecycle.Probed(Lifecycle.Child(o.apiReady, o.nodeReady, o.storageReady),
        if o.nodePort > 0 && o.endpoint != "" then (if parses then Lifecycle.GoodEndpoint else Lifecycle.BadEndpoint) else Lifecycle.NoEndpoint,
        o.hasClient)
  }

  /** The resource observer meets the assumption under which phase Ready is sound, and its endpoint is always published. */
  method ObserveForLifecycle(out: Outside, host: Host, hostNamespace: string, name: string, uid: string, addresses: seq<string>, parses: bool)
    returns (probe: Lifecycle.Probe)
    ensures probe.ProbeFailed? || probe.Probed?
    ensures probe.Probed? <==>
      && host.storageClass.Some? && Certified(host.storageClass.value)
      && exists base, i :: IsBase(host, hostNamespace, name, uid, base) && Reaches(out, base, addresses, i)
    ensures probe.Probed? ==> probe.child == Lifecycle.Child(true, true, true) && probe.client
    ensures probe.Probed? ==> probe.endpoint == (if parses then Lifecycle.GoodEndpoint else Lifecycle.BadEndpoint)
  {
    var r := Observe(out, host, hostNamespace, name, uid, addresses);
    probe := ProbeOf(r, parses);
  }
}
