/** From an endpoint status to the HAProxy backends (pkg/controller/haproxy_controller.go):
    one server per address, named after its service, with the service's weight
    divided among its addresses. */
module HAProxy {
  import opened KanaryTypes
  import opened Lists
  import opened Decimal
  import opened EndpointDiff
  import opened Float32

  datatype HAConfigBackend = HAConfigBackend(name: string, weight: real, ip: string)

  /** How the weight of a service is divided by the number of its addresses. The
      controller uses FloatShare; ExactShare is the division it approximates. */
  type Share = (int, nat) -> real

  function ExactShare(w: int, n: nat): real {
    if n == 0 then 0.0 else w as real / n as real
  }

  // ---------- naming ----------

  function ServerName(service: string, i: nat): string {
    service + "-" + Itoa(i)
  }

  function ServiceOf(serverName: string): Option<string> {
    match CutLast(serverName, '-')
    case None => None
    case Some((service, _)) => Some(service)
  }

  /** The derived names of a Kanary: its own name, a dash and what the object is. */
  lemma DerivedNamesReadBack(kanary: string)
    ensures CutLast(ConfigMapName(kanary), '-') == Some((kanary, "config"))
    ensures CutLast(ProxyName(kanary), '-') == Some((kanary, "haproxy"))
  {
    CutLastJoin(kanary, "config", '-');
    CutLastJoin(kanary, "haproxy", '-');
    assert ConfigMapName(kanary) == kanary + ['-'] + "config" && ProxyName(kanary) == kanary + ['-'] + "haproxy";
  }

  lemma ServerNameParts(service: string, i: nat)
    ensures CutLast(ServerName(service, i), '-') == Some((service, Itoa(i)))
    ensures ServiceOf(ServerName(service, i)) == Some(service)
  {
    CutLastJoin(service, Itoa(i), '-');
    assert ServerName(service, i) == service + ['-'] + Itoa(i);
  }

  /** What stands behind the last dash is the shortest numeral of the position. */
  lemma ServerNameEndsInPosition(service: string, i: nat)
    ensures CutLast(ServerName(service, i), '-').Some?
    ensures var (own, position) := CutLast(ServerName(service, i), '-').value;
            && own == service && AllDigits(position) && ValueOf(position) == i
            && forall s :: AllDigits(s) && s != "" && ValueOf(s) == i ==> |position| < |s| || s == position
  {
    ServerNameParts(service, i);
    PrintsDigits(i);
    hide Itoa, ValueOf, ServerName;
    forall s | AllDigits(s) && s != "" && ValueOf(s) == i ensures |Itoa(i)| < |s| || s == Itoa(i) {
      ItoaIsShortest(i, s);
    }
  }

  /** A server name determines its service and its index, even when the service
      name itself contains dashes and digits. */
  lemma ServerNameInjective(s: string, i: nat, t: string, j: nat)
    ensures ServerName(s, i) == ServerName(t, j) <==> s == t && i == j
  {
    ServerNameParts(s, i);
    ServerNameParts(t, j);
    if ServerName(s, i) == ServerName(t, j) {
      ItoaInjective(i, j);
    }
  }

  // ---------- the backends ----------

  function EntryBackends(share: Share, e: KanaryEndpointList): (r: seq<HAConfigBackend>)
    ensures |r| == |e.ips|
  {
    seq(|e.ips|, i requires 0 <= i < |e.ips| =>
      HAConfigBackend(ServerName(e.serviceName, i), share(e.weight, |e.ips|), e.ips[i]))
  }

  function Backends(share: Share, es: seq<KanaryEndpointList>): seq<HAConfigBackend> {
    if es == [] then [] else EntryBackends(share, es[0]) + Backends(share, es[1..])
  }

  method NewHAProxyController(epLists: seq<KanaryEndpointList>) returns (endpoints: seq<HAConfigBackend>)
    ensures endpoints == Backends(FloatShare, epLists)
  {
    hide FloatShare, Itoa;
    endpoints := [];
    ghost var remaining := Backends(FloatShare, epLists);
    assert epLists[0..] == epLists;
    for k := 0 to |epLists|
      invariant remaining == Backends(FloatShare, epLists[k..])
      invariant endpoints + remaining == Backends(FloatShare, epLists)
    {
      var kyEp := epLists[k];
      assert epLists[k..][1..] == epLists[k + 1..];
      ghost var own, later := EntryBackends(FloatShare, kyEp), Backends(FloatShare, epLists[k + 1..]);
      assert remaining == own + later;
      ghost var before := endpoints;
      assert (before + own) + later == Backends(FloatShare, epLists);
      for i := 0 to |kyEp.ips|
        invariant |endpoints| == |before| + i
        invariant endpoints == before + own[..i]
      {
        var haConfig := HAConfigBackend(
          kyEp.serviceName + "-" + Itoa(i),
          FloatShare(kyEp.weight, |kyEp.ips|),
          kyEp.ips[i]);
        assert haConfig == own[i];
        endpoints := endpoints + [haConfig];
      }
      assert endpoints == before + own;
      remaining := later;
    }
  }

  // ---------- every address becomes a server, and nothing else does ----------

  /** b is the server of the i-th address of entry e. */
  ghost predicate Serves(share: Share, b: HAConfigBackend, e: KanaryEndpointList, i: nat) {
    i < |e.ips| && b == HAConfigBackend(ServerName(e.serviceName, i), share(e.weight, |e.ips|), e.ips[i])
  }

  lemma {:induction false} ServersAreAddresses(share: Share, es: seq<KanaryEndpointList>, b: HAConfigBackend)
    ensures b in Backends(share, es) <==> exists k, i: nat :: 0 <= k < |es| && Serves(share, b, es[k], i)
  {
    if es == [] {
    } else {
      ServersAreAddresses(share, es[1..], b);
      if b in EntryBackends(share, es[0]) {
        var i :| 0 <= i < |es[0].ips| && EntryBackends(share, es[0])[i] == b;
        assert Serves(share, b, es[0], i);
      }
      if b in Backends(share, es[1..]) {
        var k, i: nat :| 0 <= k < |es[1..]| && Serves(share, b, es[1..][k], i);
        assert Serves(share, b, es[k + 1], i);
      }
      if k, i: nat :| 0 <= k < |es| && Serves(share, b, es[k], i) {
        if k == 0 {
          assert EntryBackends(share, es[0])[i] == b;
        } else {
          assert Serves(share, b, es[1..][k - 1], i);
        }
      }
    }
  }

  /** How many servers the first k entries have. */
  ghost function ServersBefore(es: seq<KanaryEndpointList>, k: nat): nat
    requires k <= |es|
  {
    if k == 0 then 0 else |es[0].ips| + ServersBefore(es[1..], k - 1)
  }

  /** The servers stand in the order of the entries, within an entry in the order of its
      addresses, and there are no others. */
  lemma {:induction false} ServersInOrder(share: Share, es: seq<KanaryEndpointList>, k: nat, i: nat)
    requires k < |es| && i < |es[k].ips|
    ensures |Backends(share, es)| == ServersBefore(es, |es|) > ServersBefore(es, k) + i
    ensures Serves(share, Backends(share, es)[ServersBefore(es, k) + i], es[k], i)
  {
    ServerCount(share, es);
    if k > 0 {
      assert es[1..][k - 1] == es[k];
      ServersInOrder(share, es[1..], k - 1, i);
      assert Backends(share, es)[|es[0].ips|..] == Backends(share, es[1..]);
    }
  }

  lemma {:induction false} ServerCount(share: Share, es: seq<KanaryEndpointList>)
    ensures |Backends(share, es)| == ServersBefore(es, |es|)
  {
    if es != [] {
      ServerCount(share, es[1..]);
    }
  }

  /** Among the servers of `recorded` there is one for address ip of e's service,
      with e's weight divided by the number of addresses recorded for the service. */
  ghost predicate AddressServed(share: Share, recorded: seq<KanaryEndpointList>, e: KanaryEndpointList, ip: string) {
    exists j: nat, m: nat :: j < |recorded| && m < |recorded[j].ips| && recorded[j].ips[m] == ip
      && HAConfigBackend(ServerName(e.serviceName, m), share(e.weight, |recorded[j].ips|), ip) in Backends(share, recorded)
  }

  lemma CoveredAddressServed(share: Share, expected: seq<KanaryEndpointList>, recorded: seq<KanaryEndpointList>,
                             i: nat, ip: string)
    requires StatusCovers(expected, recorded) && i < |expected| && ip in expected[i].ips
    ensures AddressServed(share, recorded, expected[i], ip)
  {
    assert SomeCovers(recorded, expected[i]);
    var j: nat :| j < |recorded| && Covers(recorded[j], expected[i]);
    var m: nat :| m < |recorded[j].ips| && recorded[j].ips[m] == ip;
    var b := HAConfigBackend(ServerName(recorded[j].serviceName, m), share(recorded[j].weight, |recorded[j].ips|), ip);
    assert Serves(share, b, recorded[j], m);
    ServersAreAddresses(share, recorded, b);
    hide ServerName, Backends, Serves, StatusCovers;
  }

  ghost predicate NamesUnique(bs: seq<HAConfigBackend>) {
    forall i, j :: 0 <= i < j < |bs| ==> bs[i].name != bs[j].name
  }

  /** Of two entries for one service at least one has no address. */
  ghost predicate ServedOnce(es: seq<KanaryEndpointList>) {
    forall i, j :: 0 <= i < j < |es| && es[i].serviceName == es[j].serviceName ==> es[i].ips == [] || es[j].ips == []
  }

  /** The server names of a configuration are pairwise distinct exactly when no service
      has addresses in two entries. */
  lemma ServerNamesUnique(share: Share, es: seq<KanaryEndpointList>)
    ensures NamesUnique(Backends(share, es)) <==> ServedOnce(es)
  {
    if ServedOnce(es) {
      ServedOnceIsUnique(share, es);
    } else {
      hide Backends, NamesUnique, ServersBefore;
      var i, j :| 0 <= i < j < |es| && es[i].serviceName == es[j].serviceName && es[i].ips != [] && es[j].ips != [];
      ServersInOrder(share, es, i, 0);
      ServersInOrder(share, es, j, 0);
      LaterEntry(es, i, j);
      SameNames(Backends(share, es), ServersBefore(es, i), ServersBefore(es, j));
    }
  }

  lemma {:induction false} LaterEntry(es: seq<KanaryEndpointList>, i: nat, j: nat)
    requires i < j <= |es|
    ensures ServersBefore(es, i) + |es[i].ips| <= ServersBefore(es, j)
  {
    if i > 0 {
      LaterEntry(es[1..], i - 1, j - 1);
    }
  }

  lemma SameNames(bs: seq<HAConfigBackend>, i: nat, j: nat)
    requires i < j < |bs| && bs[i].name == bs[j].name
    ensures !NamesUnique(bs)
  {
  }

  lemma {:induction false} ServedOnceIsUnique(share: Share, es: seq<KanaryEndpointList>)
    requires ServedOnce(es)
    ensures NamesUnique(Backends(share, es))
  {
    if es != [] {
      assert forall k :: 0 <= k < |es[1..]| ==> es[1..][k] == es[k + 1];
      ServedOnceIsUnique(share, es[1..]);
      HeadNamesUnique(share, es);
    }
  }

  lemma HeadNamesUnique(share: Share, es: seq<KanaryEndpointList>)
    requires es != [] && ServedOnce(es) && NamesUnique(Backends(share, es[1..]))
    ensures NamesUnique(Backends(share, es))
  {
    var first, rest := EntryBackends(share, es[0]), Backends(share, es[1..]);
    var all: seq<HAConfigBackend> := first + rest;
    forall i, j | 0 <= i < j < |all| ensures all[i].name != all[j].name {
      if j < |first| {
        ServerNameInjective(es[0].serviceName, i, es[0].serviceName, j);
      } else if i < |first| {
        OtherEntry(share, es, i, rest[j - |first|]);
      }
    }
  }

  lemma OtherEntry(share: Share, es: seq<KanaryEndpointList>, i: nat, b: HAConfigBackend)
    requires ServedOnce(es) && es != [] && i < |es[0].ips| && b in Backends(share, es[1..])
    ensures b.name != ServerName(es[0].serviceName, i)
  {
    ServersAreAddresses(share, es[1..], b);
    var k, m: nat :| 0 <= k < |es[1..]| && Serves(share, b, es[1..][k], m);
    assert es[1..][k] == es[k + 1];
    ServerNameInjective(es[0].serviceName, i, es[k + 1].serviceName, m);
  }

  // ---------- weight conservation ----------

  ghost function WeightOf(bs: seq<HAConfigBackend>, service: string): real {
    if bs == [] then 0.0
    else (if ServiceOf(bs[0].name) == Some(service) then bs[0].weight else 0.0) + WeightOf(bs[1..], service)
  }

  ghost function TotalWeight(bs: seq<HAConfigBackend>): real {
    if bs == [] then 0.0 else bs[0].weight + TotalWeight(bs[1..])
  }

  /** The route weight of a service, counting only routes that have an address. */
  ghost function RouteWeightOf(es: seq<KanaryEndpointList>, service: string): int {
    if es == [] then 0
    else (if es[0].serviceName == service && es[0].ips != [] then es[0].weight else 0) + RouteWeightOf(es[1..], service)
  }

  ghost function TotalRouteWeight(es: seq<KanaryEndpointList>): int {
    if es == [] then 0 else (if es[0].ips != [] then es[0].weight else 0) + TotalRouteWeight(es[1..])
  }

  lemma {:induction false} WeightsAppend(a: seq<HAConfigBackend>, b: seq<HAConfigBackend>, service: string)
    ensures WeightOf(a + b, service) == WeightOf(a, service) + WeightOf(b, service)
    ensures TotalWeight(a + b) == TotalWeight(a) + TotalWeight(b)
  {
    if a == [] {
      assert a + b == b;
    } else {
      assert (a + b)[1..] == a[1..] + b;
      WeightsAppend(a[1..], b, service);
    }
  }

  ghost function Times(n: nat, w: real): real {
    n as real * w
  }

  /** Servers of one service that all have the same weight. */
  lemma {:induction false} UniformWeight(bs: seq<HAConfigBackend>, own: string, w: real, service: string)
    requires forall i :: 0 <= i < |bs| ==> ServiceOf(bs[i].name) == Some(own) && bs[i].weight == w
    ensures TotalWeight(bs) == Times(|bs|, w)
    ensures WeightOf(bs, service) == if service == own then Times(|bs|, w) else 0.0
  {
    if bs == [] {
    } else {
      UniformWeight(bs[1..], own, w, service);
      OneMore(|bs[1..]|, w);
      hide Times;
    }
  }

  lemma OneMore(n: nat, w: real)
    ensures Times(n + 1, w) == w + Times(n, w)
  {
  }

  lemma SharesAddUp(w: int, n: nat)
    ensures Times(n, ExactShare(w, n)) == if n > 0 then w as real else 0.0
  {
    if n > 0 {
      Quotient(w as real, n as real);
    }
  }

  lemma EntryWeight(e: KanaryEndpointList, service: string)
    ensures var bs := EntryBackends(ExactShare, e);
            var w := if e.ips != [] then e.weight as real else 0.0;
            TotalWeight(bs) == w && WeightOf(bs, service) == if service == e.serviceName then w else 0.0
  {
    hide ExactShare, Times;
    var bs := EntryBackends(ExactShare, e);
    forall i | 0 <= i < |bs| ensures ServiceOf(bs[i].name) == Some(e.serviceName) {
      ServerNameParts(e.serviceName, i);
    }
    hide ServiceOf, ServerName;
    UniformWeight(bs, e.serviceName, ExactShare(e.weight, |e.ips|), service);
    SharesAddUp(e.weight, |e.ips|);
  }

  /** In exact arithmetic the servers of a service carry together exactly its
      route weight, and the whole config the weights of the services that have
      an address. */
  lemma {:induction false} WeightConserved(es: seq<KanaryEndpointList>, service: string)
    ensures WeightOf(Backends(ExactShare, es), service) == RouteWeightOf(es, service) as real
    ensures TotalWeight(Backends(ExactShare, es)) == TotalRouteWeight(es) as real
  {
    if es == [] {
    } else {
      WeightConserved(es[1..], service);
      EntryWeight(es[0], service);
      WeightsAppend(EntryBackends(ExactShare, es[0]), Backends(ExactShare, es[1..]), service);
    }
  }

  ghost function SumOfWeights(es: seq<KanaryEndpointList>): int {
    if es == [] then 0 else es[0].weight + SumOfWeights(es[1..])
  }

  /** The documented rule: when the route weights add up to 100, so do the server
      weights, provided no service with a weight is without addresses. */
  lemma {:induction false} HundredStaysHundred(es: seq<KanaryEndpointList>)
    requires SumOfWeights(es) == 100
    requires forall k :: 0 <= k < |es| ==> es[k].ips != [] || es[k].weight == 0
    ensures TotalWeight(Backends(ExactShare, es)) == 100.0
  {
    WeightConserved(es, "");
    TotalWhenNoneEmpty(es);
  }

  lemma {:induction false} TotalWhenNoneEmpty(es: seq<KanaryEndpointList>)
    requires forall k :: 0 <= k < |es| ==> es[k].ips != [] || es[k].weight == 0
    ensures TotalRouteWeight(es) == SumOfWeights(es)
  {
    if es == [] {
    } else {
      TotalWhenNoneEmpty(es[1..]);
    }
  }

  /** Without negative weights, what empty services would have weighed is missing. */
  lemma {:induction false} TotalFallsShort(es: seq<KanaryEndpointList>)
    requires forall k :: 0 <= k < |es| ==> es[k].weight >= 0
    ensures TotalRouteWeight(es) <= SumOfWeights(es)
    ensures TotalRouteWeight(es) == SumOfWeights(es)
       <==> forall k :: 0 <= k < |es| ==> es[k].ips != [] || es[k].weight == 0
  {
    if es == [] {
    } else {
      TotalFallsShort(es[1..]);
      assert forall k :: 0 < k < |es| ==> es[k] == es[1..][k - 1];
      assert forall k :: 0 <= k < |es[1..]| ==> es[1..][k] == es[k + 1];
    }
  }

  /** When no weight is negative, the servers weigh 100 exactly when no service with a
      weight is without addresses. */
  lemma {:induction false} HundredExactly(es: seq<KanaryEndpointList>)
    requires SumOfWeights(es) == 100 && forall k :: 0 <= k < |es| ==> es[k].weight >= 0
    ensures TotalWeight(Backends(ExactShare, es)) == 100.0
       <==> forall k :: 0 <= k < |es| ==> es[k].ips != [] || es[k].weight == 0
  {
    WeightConserved(es, "");
    TotalFallsShort(es);
  }

  /** What a server does for the traffic; its index within the service is not part of it. */
  datatype Target = Target(service: Option<string>, ip: string, weight: real)

  ghost function TargetsOf(bs: seq<HAConfigBackend>): multiset<Target> {
    if bs == [] then multiset{}
    else multiset{Target(ServiceOf(bs[0].name), bs[0].ip, bs[0].weight)} + TargetsOf(bs[1..])
  }

  lemma {:induction false} TargetsAppend(a: seq<HAConfigBackend>, b: seq<HAConfigBackend>)
    ensures TargetsOf(a + b) == TargetsOf(a) + TargetsOf(b)
  {
    if a == [] {
      assert a + b == b;
    } else {
      assert (a + b)[1..] == a[1..] + b;
      TargetsAppend(a[1..], b);
    }
  }

  /** The targets of servers of one service and weight, by their addresses. */
  ghost function AddressTargets(service: string, w: real, ips: seq<string>): multiset<Target> {
    if ips == [] then multiset{} else multiset{Target(Some(service), ips[0], w)} + AddressTargets(service, w, ips[1..])
  }

  lemma {:induction false} AddressTargetsWithout(service: string, w: real, ips: seq<string>, j: nat)
    requires j < |ips|
    ensures AddressTargets(service, w, ips)
         == multiset{Target(Some(service), ips[j], w)} + AddressTargets(service, w, Without(ips, j))
  {
    if j == 0 {
      assert Without(ips, 0) == ips[1..];
    } else {
      AddressTargetsWithout(service, w, ips[1..], j - 1);
      assert Without(ips, j)[0] == ips[0];
      assert Without(ips, j)[1..] == Without(ips[1..], j - 1);
    }
  }

  lemma {:induction false} AddressTargetsOfMultiset(service: string, w: real, x: seq<string>, y: seq<string>)
    requires multiset(x) == multiset(y)
    ensures AddressTargets(service, w, x) == AddressTargets(service, w, y)
  {
    assert |x| == |multiset(x)| == |y|;
    if x == [] {
    } else {
      var j := FindFirst(x, y);
      AddressTargetsOfMultiset(service, w, x[1..], Without(y, j));
      AddressTargetsWithout(service, w, y, j);
    }
  }

  lemma {:induction false} ServersToAddresses(bs: seq<HAConfigBackend>, service: string, w: real, ips: seq<string>)
    requires |bs| == |ips|
    requires forall i :: 0 <= i < |bs| ==>
                           ServiceOf(bs[i].name) == Some(service) && bs[i].weight == w && bs[i].ip == ips[i]
    ensures TargetsOf(bs) == AddressTargets(service, w, ips)
  {
    if bs == [] {
    } else {
      ServersToAddresses(bs[1..], service, w, ips[1..]);
    }
  }

  lemma EntryTargets(share: Share, e: KanaryEndpointList)
    ensures TargetsOf(EntryBackends(share, e)) == AddressTargets(e.serviceName, share(e.weight, |e.ips|), e.ips)
  {
    forall i | 0 <= i < |e.ips| ensures ServiceOf(EntryBackends(share, e)[i].name) == Some(e.serviceName) {
      ServerNameParts(e.serviceName, i);
    }
    ServersToAddresses(EntryBackends(share, e), e.serviceName, share(e.weight, |e.ips|), e.ips);
  }

  lemma EntryTargetsOfNormal(share: Share, a: KanaryEndpointList, b: KanaryEndpointList)
    requires NormalOf(a) == NormalOf(b)
    ensures TargetsOf(EntryBackends(share, a)) == TargetsOf(EntryBackends(share, b))
  {
    EntryTargets(share, a);
    EntryTargets(share, b);
    assert |a.ips| == |multiset(a.ips)| == |multiset(b.ips)| == |b.ips|;
    AddressTargetsOfMultiset(a.serviceName, share(a.weight, |a.ips|), a.ips, b.ips);
  }

  ghost function StatusTargets(share: Share, es: seq<KanaryEndpointList>): multiset<Target> {
    if es == [] then multiset{} else TargetsOf(EntryBackends(share, es[0])) + StatusTargets(share, es[1..])
  }

  lemma {:induction false} BackendTargets(share: Share, es: seq<KanaryEndpointList>)
    ensures TargetsOf(Backends(share, es)) == StatusTargets(share, es)
  {
    if es == [] {
    } else {
      BackendTargets(share, es[1..]);
      TargetsAppend(EntryBackends(share, es[0]), Backends(share, es[1..]));
    }
  }

  lemma SwapSummands<T>(a: multiset<T>, b: multiset<T>, c: multiset<T>)
    ensures a + (b + c) == b + (a + c)
  {
  }

  lemma {:induction false} StatusTargetsWithout(share: Share, es: seq<KanaryEndpointList>, j: nat)
    requires j < |es|
    ensures StatusTargets(share, es) == TargetsOf(EntryBackends(share, es[j])) + StatusTargets(share, Without(es, j))
  {
    hide TargetsOf, EntryBackends;
    if j == 0 {
      assert Without(es, 0) == es[1..];
    } else {
      StatusTargetsWithout(share, es[1..], j - 1);
      var w := Without(es, j);
      assert w[0] == es[0] && w[1..] == Without(es[1..], j - 1);
      SwapSummands(TargetsOf(EntryBackends(share, es[0])), TargetsOf(EntryBackends(share, es[j])),
                   StatusTargets(share, w[1..]));
    }
  }

  /** The first entry's counterpart, and what is left when both are taken away. */
  lemma MatchFirst(a: seq<KanaryEndpointList>, b: seq<KanaryEndpointList>) returns (j: nat)
    requires a != [] && SameUpToOrder(a, b)
    ensures j < |b| && NormalOf(a[0]) == NormalOf(b[j]) && SameUpToOrder(a[1..], Without(b, j))
  {
    j := FindFirst(NormalsOf(a), NormalsOf(b));
    assert NormalsOf(a)[1..] == NormalsOf(a[1..]);
    NormalsWithoutCommute(b, j);
  }

  /** Lists that are equal up to order give the same servers: same services, same
      addresses, same weights, same multiplicities. */
  lemma SameServers(share: Share, a: seq<KanaryEndpointList>, b: seq<KanaryEndpointList>)
    requires SameUpToOrder(a, b)
    ensures TargetsOf(Backends(share, a)) == TargetsOf(Backends(share, b))
  {
    SameStatusTargets(share, a, b);
    BackendTargets(share, a);
    BackendTargets(share, b);
  }

  lemma {:induction false} SameStatusTargets(share: Share, a: seq<KanaryEndpointList>, b: seq<KanaryEndpointList>)
    requires SameUpToOrder(a, b)
    ensures StatusTargets(share, a) == StatusTargets(share, b)
  {
    assert |a| == |multiset(NormalsOf(a))| == |b|;
    if a == [] {
    } else {
      var j := MatchFirst(a, b);
      hide SameUpToOrder, TargetsOf, EntryBackends;
      SameStatusTargets(share, a[1..], Without(b, j));
      EntryTargetsOfNormal(share, a[0], b[j]);
      StatusTargetsWithout(share, b, j);
    }
  }

  /** Skipping the regeneration loses nothing: when expected entries are distinct
      and their addresses duplicate-free, a diff that answers true while no entry
      shrank means that regenerating would give the same servers. */
  lemma SkipKeepsServers(share: Share, expected: seq<KanaryEndpointList>, recorded: seq<KanaryEndpointList>)
    requires DistinctEntries(expected) && DistinctAddresses(expected)
    requires StatusCovers(expected, recorded) && !SomeEntryShrank(expected, recorded)
    ensures TargetsOf(Backends(share, expected)) == TargetsOf(Backends(share, recorded))
  {
    CoveredIsSame(expected, recorded);
    SameServers(share, expected, recorded);
  }
}
