/** The Kanary custom resource and the Kubernetes objects its controller handles.

    All objects live in one namespace: every API call of a sync is made in the
    Kanary's own namespace, so namespaces never interact. */
module KanaryTypes {

  datatype Option<+T> = None | Some(value: T) {
    function GetOr(default: T): T {
      match this
      case Some(v) => v
      case None => default
    }
  }

  /** A Kubernetes IntOrString: both halves are always readable, and the one
      that was not set is zero or empty. */
  datatype IntOrString = IntOrString(intVal: int, strVal: string)

  datatype KanaryService = KanaryService(serviceName: string, servicePort: IntOrString)

  datatype KanaryRoute = KanaryRoute(backend: KanaryService, weight: int)

  datatype KanarySpec = KanarySpec(destination: string, routes: seq<KanaryRoute>)

  datatype KanaryEndpointList = KanaryEndpointList(serviceName: string, weight: int, ips: seq<string>)

  datatype DestinationStatus = DestinationStatus(proxyName: string, serviceName: string, configName: string)

  datatype KanaryStatus = KanaryStatus(destination: DestinationStatus, endpoints: seq<KanaryEndpointList>)

  datatype Kanary = Kanary(name: string, version: nat, spec: KanarySpec, status: KanaryStatus) {

    predicate HAProxyCreationNeeded() {
      status.destination.proxyName == ""
    }

    function WithConfigName(n: string): Kanary {
      this.(status := status.(destination := status.destination.(configName := n)))
    }

    function WithProxyName(n: string): Kanary {
      this.(status := status.(destination := status.destination.(proxyName := n)))
    }

    function WithServiceName(n: string): Kanary {
      this.(status := status.(destination := status.destination.(serviceName := n)))
    }

    function WithEndpoints(es: seq<KanaryEndpointList>): Kanary {
      this.(status := status.(endpoints := es))
    }
  }

  /** Which Kanary a destination name belongs to. Users give a Kanary only
      destinations of its own, and no foreign Service has such a name. */
  type Reservations = map<string, string>

  /** What users may write: at least one route, and a destination of the Kanary's own. */
  ghost predicate SpecAllowed(reserved: Reservations, k: string, spec: KanarySpec) {
    spec.routes != [] && spec.destination != "" && spec.destination in reserved && reserved[spec.destination] == k
  }

  const BLANK_STATUS := KanaryStatus(DestinationStatus("", "", ""), [])

  datatype EndpointPort = EndpointPort(name: string, port: int)

  datatype EndpointSubset = EndpointSubset(addresses: seq<string>, ports: seq<EndpointPort>)

  /** The decoded kanaryRef annotation. Absent covers a missing key and an empty
      text; Malformed is a text that is not a JSON list of strings. */
  datatype Annotation = Absent | Malformed | Refs(names: seq<string>) {

    function Names(): seq<string> {
      if Refs? then names else []
    }
  }

  datatype Endpoints = Endpoints(name: string, version: nat, subsets: seq<EndpointSubset>, kanaryRef: Annotation)

  datatype ConfigMap = ConfigMap(name: string, config: string)

  /** configVolume is the ConfigMap the pod template mounts, podLabel the value of
      the pods' proxy label, revision the text of the kanary.revision annotation. */
  datatype Deployment = Deployment(name: string, version: nat, configVolume: string, podLabel: string, revision: string)

  /** selector is the value the Service requires of a pod's proxy label. */
  datatype Service = Service(name: string, selector: string)

  function ConfigMapName(kanary: string): (n: string)
    ensures n != ""
  {
    kanary + "-config"
  }

  function ProxyName(kanary: string): (n: string)
    ensures n != ""
  {
    kanary + "-haproxy"
  }

  /** Appending a fixed suffix is injective, so Kanaries never share derived names. */
  lemma DerivedNamesInjective(a: string, b: string)
    ensures ConfigMapName(a) == ConfigMapName(b) <==> a == b
    ensures ProxyName(a) == ProxyName(b) <==> a == b
  {
    if ConfigMapName(a) == ConfigMapName(b) {
      assert |a| == |b|;
      assert a == ConfigMapName(a)[..|a|] && b == ConfigMapName(b)[..|b|];
    }
    if ProxyName(a) == ProxyName(b) {
      assert |a| == |b|;
      assert a == ProxyName(a)[..|a|] && b == ProxyName(b)[..|b|];
    }
  }
}
