/** The host objects that an Ingress mirror consists of (internal/render/render.go). */
module HostObjects {
  import opened Api

  datatype Address = Address(ip: string, hostname: string, nodeName: Option<string>)

  /** Port names are stripped, so only protocol and number are left. */
  datatype Subset = Subset(addresses: seq<Address>, ports: seq<(string, int)>)

  datatype HostRule = HostRule(host: string, path: string, pathType: string, service: string, port: int)

  datatype HostObject =
    | HostService(name: string, port: int)
    | HostEndpoints(name: string, subsets: seq<Subset>)
    | HostIngress(name: string, rules: seq<HostRule>)
}
