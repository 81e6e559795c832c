/** Building the expected endpoint status of a Kanary from its routes and the
    Endpoints objects they name (pkg/controller/controller.go, utils.go). */
module ExpectedStatus {
  import opened KanaryTypes
  import opened Decimal

  type EndpointsCache = map<string, Endpoints>

  // ---------- port lookup ----------

  /** The test the port lookup applies; the unset half of `port` takes part too. */
  predicate PortMatches(p: EndpointPort, port: IntOrString) {
    p.name == port.strVal || p.port == port.intVal
  }

  /** The ports of all subsets, in the order the lookup visits them. */
  function AllPorts(subsets: seq<EndpointSubset>): seq<EndpointPort> {
    if subsets == [] then [] else subsets[0].ports + AllPorts(subsets[1..])
  }

  function FirstMatch(ports: seq<EndpointPort>, port: IntOrString): int {
    if ports == [] then -1
    else if PortMatches(ports[0], port) then ports[0].port
    else FirstMatch(ports[1..], port)
  }

  method VerifyEndpointPortExist(ep: Endpoints, port: IntOrString) returns (found: int)
    ensures found == FirstMatch(AllPorts(ep.subsets), port)
  {
    for i := 0 to |ep.subsets|
      invariant FirstMatch(AllPorts(ep.subsets), port) == FirstMatch(AllPorts(ep.subsets[i..]), port)
    {
      var ports := ep.subsets[i].ports;
      ghost var later := AllPorts(ep.subsets[i + 1..]);
      assert ep.subsets[i..][1..] == ep.subsets[i + 1..];
      assert ports == ports[0..];
      for j := 0 to |ports|
        invariant FirstMatch(AllPorts(ep.subsets), port) == FirstMatch(ports[j..] + later, port)
      {
        assert (ports[j..] + later)[0] == ports[j];
        assert (ports[j..] + later)[1..] == ports[j + 1..] + later;
        if ports[j].name == port.strVal || ports[j].port == port.intVal {
          return ports[j].port;
        }
      }
      assert ports[|ports|..] + later == later;
    }
    return -1;
  }

  /** The lookup answers the number of the first port that passes the test, and
      -1 exactly when none does (port numbers are positive). */
  lemma {:induction false} FirstMatchIsFirst(ports: seq<EndpointPort>, port: IntOrString)
    requires forall i :: 0 <= i < |ports| ==> ports[i].port > 0
    ensures FirstMatch(ports, port) == -1 <==> forall i :: 0 <= i < |ports| ==> !PortMatches(ports[i], port)
    ensures FirstMatch(ports, port) != -1 ==>
              exists i :: 0 <= i < |ports| && PortMatches(ports[i], port) && FirstMatch(ports, port) == ports[i].port
                          && forall j :: 0 <= j < i ==> !PortMatches(ports[j], port)
  {
    if ports == [] || PortMatches(ports[0], port) {
    } else {
      var rest := ports[1..];
      FirstMatchIsFirst(rest, port);
      if FirstMatch(rest, port) != -1 {
        var i :| 0 <= i < |rest| && PortMatches(rest[i], port) && FirstMatch(rest, port) == rest[i].port
                 && forall j :: 0 <= j < i ==> !PortMatches(rest[j], port);
        assert rest[i] == ports[i + 1];
        forall j | 0 <= j < i + 1 ensures !PortMatches(ports[j], port) {
          assert j > 0 ==> rest[j - 1] == ports[j];
        }
      } else {
        forall i | 0 <= i < |ports| ensures !PortMatches(ports[i], port) {
          assert i > 0 ==> rest[i - 1] == ports[i];
        }
      }
    }
  }

  /** One of the first `end` ports has number n. */
  ghost predicate OffersWithin(ports: seq<EndpointPort>, n: int, end: nat) {
    exists i :: 0 <= i < end && i < |ports| && ports[i].port == n
  }

  ghost predicate Offers(ports: seq<EndpointPort>, n: int) {
    OffersWithin(ports, n, |ports|)
  }

  /** A port given by number has an empty name half, which an unnamed port of any
      number satisfies. So a numeric servicePort is answered as documented, with
      its own number if it is offered and with -1 if not, exactly when no unnamed
      port comes before the first port of that number; in particular, a number
      that is not offered is refused exactly when every port has a name. */
  lemma {:induction false} NumericPortResolves(ports: seq<EndpointPort>, n: int)
    requires forall i :: 0 <= i < |ports| ==> ports[i].port > 0
    ensures FirstMatch(ports, IntOrString(n, "")) == (if Offers(ports, n) then n else -1)
       <==> forall j :: 0 <= j < |ports| && ports[j].name == "" ==> OffersWithin(ports, n, j + 1)
  {
    if ports == [] {
    } else {
      var rest := ports[1..];
      NumericPortResolves(rest, n);
      assert forall i :: 0 < i < |ports| ==> ports[i] == rest[i - 1];
      assert forall i :: 0 <= i < |rest| ==> rest[i] == ports[i + 1];
      if ports[0].port == n {
      } else if ports[0].name == "" {
        assert PortMatches(ports[0], IntOrString(n, ""));
      } else {
        forall j: nat ensures OffersWithin(rest, n, j) <==> OffersWithin(ports, n, j + 1) {
        }
        assert Offers(ports, n) <==> Offers(rest, n);
      }
    }
  }

  /** The documentation promises "port name or port value"; this Endpoints object
      offers port 8080, and asking for it answers 80. */
  lemma NumericPortMisresolves()
    ensures FirstMatch([EndpointPort("", 80), EndpointPort("http", 8080)], IntOrString(8080, "")) == 80
  {
    assert PortMatches(EndpointPort("", 80), IntOrString(8080, ""));
  }

  /** ... and this one does not offer port 9999; instead of failing, the lookup
      answers 80. */
  lemma UnofferedPortResolves()
    ensures !Offers([EndpointPort("", 80)], 9999)
    ensures FirstMatch([EndpointPort("", 80)], IntOrString(9999, "")) == 80
  {
    assert PortMatches(EndpointPort("", 80), IntOrString(9999, ""));
  }

  /** A port given by name has zero for its number half, so it is answered by the number
      of the first port of that name, and refused exactly when there is none. */
  lemma NamedPortResolves(ports: seq<EndpointPort>, name: string)
    requires forall i :: 0 <= i < |ports| ==> ports[i].port > 0
    ensures FirstMatch(ports, IntOrString(0, name)) == -1 <==> forall i :: 0 <= i < |ports| ==> ports[i].name != name
    ensures FirstMatch(ports, IntOrString(0, name)) != -1 ==>
              exists i :: 0 <= i < |ports| && ports[i].name == name && FirstMatch(ports, IntOrString(0, name)) == ports[i].port
                          && forall j :: 0 <= j < i ==> ports[j].name != name
  {
    hide FirstMatch;
    FirstMatchIsFirst(ports, IntOrString(0, name));
  }

  // ---------- the expected status ----------

  function AllAddresses(subsets: seq<EndpointSubset>): seq<string> {
    if subsets == [] then [] else subsets[0].addresses + AllAddresses(subsets[1..])
  }

  /** How many addresses, and how many ports, the first x subsets have. */
  ghost function AddressesBefore(subsets: seq<EndpointSubset>, x: nat): nat
    requires x <= |subsets|
  {
    if x == 0 then 0 else |subsets[0].addresses| + AddressesBefore(subsets[1..], x - 1)
  }

  ghost function PortsBefore(subsets: seq<EndpointSubset>, x: nat): nat
    requires x <= |subsets|
  {
    if x == 0 then 0 else |subsets[0].ports| + PortsBefore(subsets[1..], x - 1)
  }

  /** The addresses and the ports stand in the order of the subsets, and within a subset
      in its own order. */
  lemma {:induction false} VisitedInOrder(subsets: seq<EndpointSubset>, x: nat)
    requires x <= |subsets|
    ensures AddressesBefore(subsets, x) <= |AllAddresses(subsets)| && PortsBefore(subsets, x) <= |AllPorts(subsets)|
    ensures x == |subsets| ==>
              AddressesBefore(subsets, x) == |AllAddresses(subsets)| && PortsBefore(subsets, x) == |AllPorts(subsets)|
    ensures x < |subsets| ==>
              && subsets[x].addresses <= AllAddresses(subsets)[AddressesBefore(subsets, x)..]
              && subsets[x].ports <= AllPorts(subsets)[PortsBefore(subsets, x)..]
  {
    if x == 0 {
    } else {
      var rest := subsets[1..];
      VisitedInOrder(rest, x - 1);
      var a, p := AddressesBefore(rest, x - 1), PortsBefore(rest, x - 1);
      assert AllAddresses(subsets)[|subsets[0].addresses| + a..] == AllAddresses(rest)[a..];
      assert AllPorts(subsets)[|subsets[0].ports| + p..] == AllPorts(rest)[p..];
    }
  }

  function FullIP(address: string, port: int): string {
    address + ":" + Itoa(port)
  }

  function FullIPs(addresses: seq<string>, port: int): (r: seq<string>)
    ensures |r| == |addresses|
    ensures forall i :: 0 <= i < |r| ==> r[i] == FullIP(addresses[i], port)
  {
    seq(|addresses|, i requires 0 <= i < |addresses| => FullIP(addresses[i], port))
  }

  /** The status entry of one route, or None if its Endpoints object or port is missing. */
  function RouteEntry(route: KanaryRoute, cache: EndpointsCache): Option<KanaryEndpointList> {
    if route.backend.serviceName !in cache then None
    else
      var ep := cache[route.backend.serviceName];
      var port := FirstMatch(AllPorts(ep.subsets), route.backend.servicePort);
      if port == -1 then None
      else Some(KanaryEndpointList(route.backend.serviceName, route.weight, FullIPs(AllAddresses(ep.subsets), port)))
  }

  function ExpectedOf(routes: seq<KanaryRoute>, cache: EndpointsCache): Option<seq<KanaryEndpointList>> {
    if routes == [] then Some([])
    else
      match RouteEntry(routes[0], cache)
      case None => None
      case Some(e) =>
        match ExpectedOf(routes[1..], cache)
        case None => None
        case Some(es) => Some([e] + es)
  }

  /** The outcome of a build that already holds `done` and continues with `rest`. */
  ghost function Continued(done: seq<KanaryEndpointList>, rest: Option<seq<KanaryEndpointList>>)
    : Option<seq<KanaryEndpointList>>
  {
    match rest
    case None => None
    case Some(es) => Some(done + es)
  }

  method BuildExpectedEndpointStatus(ky: Kanary, cache: EndpointsCache)
    returns (expected: Option<seq<KanaryEndpointList>>)
    ensures expected == ExpectedOf(ky.spec.routes, cache)
  {
    var routes := ky.spec.routes;
    var kyEpList: seq<KanaryEndpointList> := [];
    assert routes[0..] == routes;
    assert forall es: seq<KanaryEndpointList> :: kyEpList + es == es;
    for r := 0 to |routes|
      invariant ExpectedOf(routes, cache) == Continued(kyEpList, ExpectedOf(routes[r..], cache))
    {
      var route := routes[r];
      ghost var rest := ExpectedOf(routes[r + 1..], cache);
      assert routes[r..][0] == route && routes[r..][1..] == routes[r + 1..];
      if route.backend.serviceName !in cache {
        return None;
      }
      var ep := cache[route.backend.serviceName];
      var port := VerifyEndpointPortExist(ep, route.backend.servicePort);
      if port == -1 {
        return None;
      }
      var ips := CollectAddresses(ep.subsets, port);
      var entry := KanaryEndpointList(route.backend.serviceName, route.weight, ips);
      if rest.Some? {
        assert kyEpList + ([entry] + rest.value) == (kyEpList + [entry]) + rest.value;
      }
      kyEpList := kyEpList + [entry];
    }
    assert routes[|routes|..] == [];
    assert kyEpList + [] == kyEpList;
    return Some(kyEpList);
  }

  /** The two inner loops: every address of every subset, each with the port. */
  method CollectAddresses(subsets: seq<EndpointSubset>, port: int) returns (ips: seq<string>)
    ensures ips == FullIPs(AllAddresses(subsets), port)
  {
    hide Itoa;
    ips := [];
    ghost var visited: seq<string> := [];
    assert subsets[0..] == subsets;
    for i := 0 to |subsets|
      invariant ips == FullIPs(visited, port)
      invariant visited + AllAddresses(subsets[i..]) == AllAddresses(subsets)
    {
      var addresses := subsets[i].addresses;
      assert subsets[i..][1..] == subsets[i + 1..];
      assert (visited + addresses) + AllAddresses(subsets[i + 1..]) == AllAddresses(subsets);
      ghost var before := visited;
      for j := 0 to |addresses|
        invariant visited == before + addresses[..j]
        invariant ips == FullIPs(visited, port)
      {
        ips := ips + [addresses[j] + ":" + Itoa(port)];
        visited := visited + [addresses[j]];
      }
      assert visited == before + addresses;
    }
    assert visited == AllAddresses(subsets);
  }

  // ---------- what the build means ----------

  ghost predicate PositivePorts(cache: EndpointsCache) {
    forall n, i :: n in cache && 0 <= i < |AllPorts(cache[n].subsets)| ==> AllPorts(cache[n].subsets)[i].port > 0
  }

  /** The route's Endpoints object exists and offers a port passing the test. */
  ghost predicate Resolvable(route: KanaryRoute, cache: EndpointsCache) {
    && route.backend.serviceName in cache
    && var ports := AllPorts(cache[route.backend.serviceName].subsets);
       exists i :: 0 <= i < |ports| && PortMatches(ports[i], route.backend.servicePort)
  }

  lemma ResolvableIffEntry(route: KanaryRoute, cache: EndpointsCache)
    requires PositivePorts(cache)
    ensures RouteEntry(route, cache).Some? <==> Resolvable(route, cache)
  {
    if route.backend.serviceName in cache {
      FirstMatchIsFirst(AllPorts(cache[route.backend.serviceName].subsets), route.backend.servicePort);
    }
  }

  /** The entries stand in route order, one per route. */
  lemma {:induction false} EntriesAligned(routes: seq<KanaryRoute>, cache: EndpointsCache)
    ensures ExpectedOf(routes, cache).Some? <==> forall i :: 0 <= i < |routes| ==> RouteEntry(routes[i], cache).Some?
    ensures ExpectedOf(routes, cache).Some? ==>
              |ExpectedOf(routes, cache).value| == |routes|
              && forall i :: 0 <= i < |routes| ==> RouteEntry(routes[i], cache) == Some(ExpectedOf(routes, cache).value[i])
  {
    if routes == [] {
    } else {
      EntriesAligned(routes[1..], cache);
      forall i | 0 < i < |routes| ensures routes[i] == routes[1..][i - 1] {
      }
      if ExpectedOf(routes[1..], cache).Some? && RouteEntry(routes[0], cache).Some? {
        forall i | 0 <= i < |routes| ensures RouteEntry(routes[i], cache).Some? {
          assert i > 0 ==> RouteEntry(routes[1..][i - 1], cache).Some?;
        }
      } else if ExpectedOf(routes[1..], cache).None? {
        var i :| 0 <= i < |routes[1..]| && RouteEntry(routes[1..][i], cache).None?;
        assert RouteEntry(routes[i + 1], cache).None?;
      }
    }
  }

  /** The build succeeds exactly when every route resolves, and entry i then
      carries route i's service and weight and every address of its Endpoints
      object, in order, each with the number of the first port passing the route's test. */
  lemma RouteAligned(routes: seq<KanaryRoute>, cache: EndpointsCache)
    requires PositivePorts(cache)
    ensures ExpectedOf(routes, cache).Some? <==> forall i :: 0 <= i < |routes| ==> Resolvable(routes[i], cache)
    ensures ExpectedOf(routes, cache).Some? ==>
              var es := ExpectedOf(routes, cache).value;
              |es| == |routes| && forall i :: 0 <= i < |routes| ==> EntryDescribes(es[i], routes[i], cache)
  {
    EntriesAligned(routes, cache);
    forall i | 0 <= i < |routes| ensures RouteEntry(routes[i], cache).Some? <==> Resolvable(routes[i], cache) {
      ResolvableIffEntry(routes[i], cache);
    }
    if ExpectedOf(routes, cache).Some? {
      var es := ExpectedOf(routes, cache).value;
      forall i | 0 <= i < |routes| ensures EntryDescribes(es[i], routes[i], cache) {
        assert RouteEntry(routes[i], cache) == Some(es[i]);
        var ports := AllPorts(cache[routes[i].backend.serviceName].subsets);
        FirstMatchIsFirst(ports, routes[i].backend.servicePort);
      }
    }
  }

  ghost predicate EntryDescribes(e: KanaryEndpointList, route: KanaryRoute, cache: EndpointsCache) {
    && e.serviceName == route.backend.serviceName
    && e.weight == route.weight
    && e.serviceName in cache
    && var ports := AllPorts(cache[e.serviceName].subsets);
       var addresses := AllAddresses(cache[e.serviceName].subsets);
       exists p :: 0 <= p < |ports| && PortMatches(ports[p], route.backend.servicePort)
                   && (forall q :: 0 <= q < p ==> !PortMatches(ports[q], route.backend.servicePort))
                   && |e.ips| == |addresses|
                   && forall i :: 0 <= i < |addresses| ==> e.ips[i] == addresses[i] + ":" + Itoa(ports[p].port)
  }

  // ---------- an address and its own ports ----------

  /** ip + ":" + port determines both, also for addresses that contain colons. */
  lemma FullIPInjective(a: string, p: nat, b: string, q: nat)
    ensures FullIP(a, p) == FullIP(b, q) <==> a == b && p == q
  {
    if FullIP(a, p) == FullIP(b, q) {
      CutLastJoin(a, Itoa(p), ':');
      CutLastJoin(b, Itoa(q), ':');
      assert FullIP(a, p) == a + [':'] + Itoa(p) && FullIP(b, q) == b + [':'] + Itoa(q);
      ItoaInjective(p, q);
    }
  }

  /** What stands behind the last colon is the shortest numeral of the port. */
  lemma FullIPEndsInPort(a: string, p: nat)
    ensures CutLast(FullIP(a, p), ':').Some?
    ensures var (address, port) := CutLast(FullIP(a, p), ':').value;
            && address == a && AllDigits(port) && ValueOf(port) == p
            && forall s :: AllDigits(s) && s != "" && ValueOf(s) == p ==> |port| < |s| || s == port
  {
    CutLastJoin(a, Itoa(p), ':');
    assert FullIP(a, p) == a + [':'] + Itoa(p);
    PrintsDigits(p);
    hide Itoa, ValueOf;
    forall s | AllDigits(s) && s != "" && ValueOf(s) == p ensures |Itoa(p)| < |s| || s == Itoa(p) {
      ItoaIsShortest(p, s);
    }
  }

  /** The subset has the address and a port of that number. */
  ghost predicate OffersAt(subset: EndpointSubset, address: string, n: int) {
    address in subset.addresses && exists p :: p in subset.ports && p.port == n
  }

  /** One of the subsets has an address and a port that make up ip. */
  ghost predicate Offered(subsets: seq<EndpointSubset>, ip: string) {
    exists x, a, n :: 0 <= x < |subsets| && OffersAt(subsets[x], a, n) && ip == FullIP(a, n)
  }

  ghost predicate OfferedAddress(subsets: seq<EndpointSubset>, address: string, n: int) {
    exists x :: 0 <= x < |subsets| && OffersAt(subsets[x], address, n)
  }

  lemma {:induction false} InSomeSubset(subsets: seq<EndpointSubset>)
    ensures forall a :: a in AllAddresses(subsets) <==> exists x :: 0 <= x < |subsets| && a in subsets[x].addresses
    ensures forall p :: p in AllPorts(subsets) <==> exists x :: 0 <= x < |subsets| && p in subsets[x].ports
  {
    if subsets == [] {
    } else {
      var rest := subsets[1..];
      InSomeSubset(rest);
      assert forall x :: 0 <= x < |rest| ==> rest[x] == subsets[x + 1];
      assert forall x :: 0 < x < |subsets| ==> subsets[x] == rest[x - 1];
    }
  }

  lemma OfferedTogether(subsets: seq<EndpointSubset>, address: string, n: nat)
    requires forall p :: p in AllPorts(subsets) ==> p.port >= 0
    ensures Offered(subsets, FullIP(address, n)) <==> OfferedAddress(subsets, address, n)
  {
    hide FullIP;
    InSomeSubset(subsets);
    if Offered(subsets, FullIP(address, n)) {
      var x, a, m :| 0 <= x < |subsets| && OffersAt(subsets[x], a, m) && FullIP(address, n) == FullIP(a, m);
      FullIPInjective(address, n, a, m);
    }
    if OfferedAddress(subsets, address, n) {
      var x :| 0 <= x < |subsets| && OffersAt(subsets[x], address, n);
      assert Offered(subsets, FullIP(address, n));
    }
  }

  /** Every address of the service gets the number of the first port that passes the
      test, whichever subset that port is from. So what the entry lists is really
      offered exactly when every address stands in a subset with that number among its
      ports; in particular it is when all subsets have the same port numbers. */
  lemma EntryIsOffered(route: KanaryRoute, cache: EndpointsCache)
    requires PositivePorts(cache) && RouteEntry(route, cache).Some?
    ensures var subsets := cache[route.backend.serviceName].subsets;
            var n := FirstMatch(AllPorts(subsets), route.backend.servicePort);
            (forall ip :: ip in RouteEntry(route, cache).value.ips ==> Offered(subsets, ip)) <==>
            (forall a :: a in AllAddresses(subsets) ==> OfferedAddress(subsets, a, n))
  {
    var subsets := cache[route.backend.serviceName].subsets;
    var ports, addresses := AllPorts(subsets), AllAddresses(subsets);
    var n, ips := FirstMatch(ports, route.backend.servicePort), RouteEntry(route, cache).value.ips;
    FirstMatchIsFirst(ports, route.backend.servicePort);
    hide FirstMatch, AllPorts, AllAddresses, Offered, OfferedAddress, FullIP, PortMatches;
    assert ips == FullIPs(addresses, n);
    forall a | a in addresses ensures Offered(subsets, FullIP(a, n)) <==> OfferedAddress(subsets, a, n) {
      OfferedTogether(subsets, a, n);
    }
    forall a | a in addresses ensures FullIP(a, n) in ips {
      var i :| 0 <= i < |addresses| && addresses[i] == a;
      assert ips[i] == FullIP(a, n);
    }
  }

  /** A named port whose number differs between two subsets: the second address is
      listed with the number of the first one's port. */
  lemma NamedPortMismatch(weight: int)
    ensures var route := KanaryRoute(KanaryService("app", IntOrString(0, "http")), weight);
            && RouteEntry(route, map["app" := TWO_PORTS])
               == Some(KanaryEndpointList("app", weight, [FullIP("10.0.0.1", 8080), FullIP("10.0.0.2", 8080)]))
            && !Offered(TWO_PORTS.subsets, FullIP("10.0.0.2", 8080))
  {
    var ports, subsets := [EndpointPort("http", 8080), EndpointPort("http", 9090)], TWO_PORTS.subsets;
    assert subsets[1..] == [subsets[1]] && subsets[1..][1..] == [];
    assert AllAddresses(subsets[1..]) == subsets[1].addresses + AllAddresses([]);
    assert AllPorts(subsets[1..]) == subsets[1].ports + AllPorts([]);
    assert AllPorts(subsets) == ports && AllAddresses(subsets) == ["10.0.0.1", "10.0.0.2"];
    assert PortMatches(ports[0], IntOrString(0, "http"));
    assert FirstMatch(ports, IntOrString(0, "http")) == 8080;
    hide FullIP, Itoa;
    assert FullIPs(["10.0.0.1", "10.0.0.2"], 8080) == [FullIP("10.0.0.1", 8080), FullIP("10.0.0.2", 8080)];
    OfferedTogether(subsets, "10.0.0.2", 8080);
    assert !OfferedAddress(subsets, "10.0.0.2", 8080);
  }

  const TWO_PORTS := Endpoints("app", 1, [EndpointSubset(["10.0.0.1"], [EndpointPort("http", 8080)]),
                                          EndpointSubset(["10.0.0.2"], [EndpointPort("http", 9090)])], Absent)
}
