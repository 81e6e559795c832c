/** Runs of fault-free syncs between which the environment edits specs, adds and
    deletes Kanaries (with the deletion handler undisturbed, too), collects what deleted
    Kanaries leave behind and churns Endpoints, Deployments and foreign Services. Each
    sync and each handler sees recent views, as its script says. */
module CalmRuns {
  import opened KanaryTypes
  import opened Decimal
  import opened EndpointDiff
  import opened ExpectedStatus
  import opened HAProxy
  import opened Float32
  import opened ConfigText
  import opened ApiStore
  import opened SyncProtocol
  import opened NonInterference
  import opened CalmSync
  import opened Views
  import opened KanaryController
  import opened DeletionRuns

  datatype CalmEvent =
    | SyncOf(k: string, script: seq<Tick>)
    | CreateKanary(k: string, spec: KanarySpec)
    | ChangeSpec(k: string, spec: KanarySpec)
    | DeleteKanary(k: string, script: seq<Tick>)
    | Collect(k: string, services: set<string>)
    | SetEndpoints(service: string, subsets: seq<EndpointSubset>)
    | DropEndpoints(service: string)
    | BumpDeployment(d: string)
    | PutForeign(svc: Service)
    | DropForeign(name: string)

  /** A sync that writes its configuration either names no service twice or sees its own
      writes. A Kanary is created only under a name of which nothing is left; the garbage
      collector removes what a deleted one has left. With `watched`, Endpoints objects
      persist. */
  ghost predicate Allowed(reserved: Reservations, printer: WeightPrinter, s: Store, e: CalmEvent, watched: bool) {
    match e
    case SyncOf(k, script) => SeesThrough(printer, s, k, script)
    case CreateKanary(k, spec) =>
      && k !in s.kanaries && SpecAllowed(reserved, k, spec)
      && ConfigAbsent(s.configMaps, s.configWrites, k) && ProxyAbsent(s.deployments, s.rolls, k)
      && NoService(reserved, s.services, k)
    case ChangeSpec(k, spec) => k in s.kanaries && SpecAllowed(reserved, k, spec)
    case DeleteKanary(k, script) => k in s.kanaries ==> UndisturbedDeletion(WithoutKanary(s, k), s.kanaries[k], script)
    case Collect(k, services) => k !in s.kanaries && forall n :: n in services ==> n in reserved && reserved[n] == k
    case SetEndpoints(_, _) => true
    case DropEndpoints(_) => !watched
    case BumpDeployment(d) => d in s.deployments
    case PutForeign(svc) => svc.name !in reserved
    case DropForeign(name) => name !in reserved
  }

  function WithoutKanary(s: Store, k: string): Store {
    s.(rev := s.rev + 1, kanaries := s.kanaries - {k})
  }

  /** The Kanary goes, and the deletion handler runs undisturbed on its last version. */
  function AfterDeletion(s: Store, k: string, script: seq<Tick>): Store
    requires k in s.kanaries
  {
    RunDeletion(WithoutKanary(s, k), s.kanaries[k], 0, script).0
  }

  /** The objects that k owned go, and the counters of its names start again. */
  ghost function Collected(s: Store, k: string, services: set<string>): Store {
    s.(rev := s.rev + 1,
       configMaps := s.configMaps - {ConfigMapName(k)}, configWrites := s.configWrites - {ConfigMapName(k)},
       deployments := s.deployments - {ProxyName(k)}, rolls := s.rolls - {ProxyName(k)},
       services := s.services - services)
  }

  ghost function Happen(printer: WeightPrinter, s: Store, e: CalmEvent): Store {
    var v := s.rev + 1;
    match e
    case SyncOf(k, script) => SyncSeeing(printer, s, k, script)
    case CreateKanary(k, spec) => s.(rev := v, kanaries := s.kanaries[k := Kanary(k, v, spec, BLANK_STATUS)])
    case ChangeSpec(k, spec) =>
      if k in s.kanaries then s.(rev := v, kanaries := s.kanaries[k := s.kanaries[k].(version := v, spec := spec)]) else s
    case DeleteKanary(k, script) => if k in s.kanaries then AfterDeletion(s, k, script) else s.(rev := v)
    case Collect(k, services) => Collected(s, k, services)
    case SetEndpoints(service, subsets) =>
      var refs := if service in s.endpoints then s.endpoints[service].kanaryRef else Absent;
      s.(rev := v, endpoints := s.endpoints[service := Endpoints(service, v, subsets, refs)])
    case DropEndpoints(service) => s.(rev := v, endpoints := s.endpoints - {service})
    case BumpDeployment(d) =>
      if d in s.deployments then s.(rev := v, deployments := s.deployments[d := s.deployments[d].(version := v)]) else s
    case PutForeign(svc) => s.(rev := v, services := s.services[svc.name := svc])
    case DropForeign(name) => s.(rev := v, services := s.services - {name})
  }

  /** Objects are stored under their names with versions that have been given out, and
      lists are readable. */
  ghost predicate Sound(s: Store) {
    WellKeyed(s) && NoneMalformed(s.endpoints) && Versioned(s)
  }

  /** Sync boundaries: every Kanary is blank or complete. */
  ghost predicate Good(reserved: Reservations, printer: WeightPrinter, s: Store, watched: bool) {
    && Sound(s)
    && forall k :: k in s.kanaries ==> Settled(reserved, printer, s, k, watched)
  }

  ghost predicate Fresh(s: Store) {
    Sound(s) && s.kanaries == map[]
  }

  // ---------- other Kanaries during a sync ----------

  lemma ServicesOfOther(reserved: Reservations, ds: set<string>, m: map<string, Service>,
                        n: map<string, Service>, k: string, j: string)
    requires ServicesKept(ds, m, n) && j != k && forall d :: d in ds ==> d in reserved && reserved[d] == k
    ensures NoService(reserved, m, j) ==> NoService(reserved, n, j)
    ensures forall name :: ServicePresent(reserved, m, j, name) ==> ServicePresent(reserved, n, j, name)
  {
    forall v: string | v in reserved && reserved[v] == j ensures v in m <==> v in n {
      assert v !in ds;
      assert ServiceAlike(v, m, n);
    }
  }

  lemma ReferencedAlike(m: EndpointsCache, n: EndpointsCache, j: string, es: seq<KanaryEndpointList>, next: nat)
    requires EndpointsAlike(j, m, n) && Referenced(m, j, es, next)
    ensures Referenced(n, j, es, next)
  {
    forall i | 0 <= i < next && i < |es| ensures es[i].serviceName in n && j in n[es[i].serviceName].kanaryRef.Names() {
      assert SameEndpointsTo(j, m[es[i].serviceName], n[es[i].serviceName]);
    }
  }

  lemma OthersStaySettled(reserved: Reservations, printer: WeightPrinter, s: Store, u: Store, k: string,
                          ds: set<string>, j: string, watched: bool)
    requires Settled(reserved, printer, s, j, watched) && j != k && OthersKept(k, ds, s, u)
    requires forall d :: d in ds ==> d in reserved && reserved[d] == k
    ensures Settled(reserved, printer, u, j, watched)
  {
    OthersUnmoved(reserved, s, u, k, ds, j, watched);
    hide Settled, OthersKept, Unmoved;
    UnmovedIsSettled(reserved, printer, s, u, j, watched);
  }

  lemma OthersUnmoved(reserved: Reservations, s: Store, u: Store, k: string, ds: set<string>, j: string, watched: bool)
    requires j in s.kanaries && SpecAllowed(reserved, j, s.kanaries[j].spec) && j != k && OthersKept(k, ds, s, u)
    requires forall d :: d in ds ==> d in reserved && reserved[d] == k
    ensures Unmoved(reserved, s, u, j, watched)
  {
    DerivedNamesInjective(j, k);
    assert ConfigMapAlike(ConfigMapName(j), s.configMaps, s.configWrites, u.configMaps, u.configWrites);
    assert DeploymentAlike(ProxyName(j), s.deployments, s.rolls, u.deployments, u.rolls);
    EndpointsKeptAlike(k, s.endpoints, u.endpoints, j);
    AlikeHolds(j, s.endpoints, u.endpoints);
    assert s.kanaries[j] == u.kanaries[j];
    hide EndpointsKept, EndpointsAlike, ConfigMapsKept, DeploymentsKept, KanariesKept, SpecAllowed, ConfigMapName, ProxyName,
         ConfigMapAlike, DeploymentAlike, RefsHeld;
    forall n | n in reserved && reserved[n] == j ensures n in s.services <==> n in u.services {
      assert n !in ds;
      assert ServiceAlike(n, s.services, u.services);
    }
  }

  lemma EndedIsSettled(reserved: Reservations, printer: WeightPrinter, s: Store, k: string,
                       exp: seq<KanaryEndpointList>, watched: bool)
    requires Ended(reserved, printer, s, k, exp, watched) && SpecAllowed(reserved, k, s.kanaries[k].spec)
    ensures Settled(reserved, printer, s, k, watched)
  {
  }

  lemma SyncKeepsGood(reserved: Reservations, printer: WeightPrinter, s: Store, k: string, script: seq<Tick>,
                      watched: bool)
    requires Good(reserved, printer, s, watched) && SeesThrough(printer, s, k, script)
    ensures Good(reserved, printer, SyncSeeing(printer, s, k, script), watched)
  {
    if k in s.kanaries {
      SyncOutcome(reserved, printer, s, k, watched);
      SettledWithin(reserved, printer, s, k, watched);
      var ds, u := Destinations(s, k), SyncSeeing(printer, s, k, script);
      SeesThroughIsSync(printer, s, k, script);
      RecentSyncKeepsOthers(printer, s, k, script, ds);
      hide Sync, SyncSeeing, SeesThrough, Destinations, Ended, WellKeyed, NoneMalformed, Versioned;
      forall j | j in u.kanaries ensures Settled(reserved, printer, u, j, watched) {
        if j == k {
          var exp := ExpectedOf(s.kanaries[k].spec.routes, s.endpoints);
          if exp.Some? {
            EndedIsSettled(reserved, printer, u, k, exp.value, watched);
          }
        } else {
          assert j in s.kanaries;
          OthersStaySettled(reserved, printer, s, u, k, ds, j, watched);
        }
      }
    } else {
      NothingToDo(printer, s, k, script);
    }
  }

  lemma SyncKeepsNames(reserved: Reservations, printer: WeightPrinter, s: Store, k: string, script: seq<Tick>,
                       watched: bool)
    requires Good(reserved, printer, s, watched) && RecentSync(printer, s, k, script)
    ensures SyncSeeing(printer, s, k, script).kanaries.Keys == s.kanaries.Keys
  {
    if k in s.kanaries {
      assert Settled(reserved, printer, s, k, watched);
      SettledWithin(reserved, printer, s, k, watched);
      RecentSyncKeepsOthers(printer, s, k, script, Destinations(s, k));
      hide SyncSeeing, RecentSync, WellKeyed, Versioned, Settled, Destinations;
    } else {
      NothingToDo(printer, s, k, script);
    }
  }

  // ---------- the environment ----------

  /** No Endpoints object that lists k has gone, and none has lost k. */
  ghost predicate RefsHeld(k: string, m: EndpointsCache, n: EndpointsCache) {
    forall e :: e in m && k in m[e].kanaryRef.Names() ==> e in n && k in n[e].kanaryRef.Names()
  }

  /** The parts of the store that Settled looks at are the same to k. */
  ghost predicate Unmoved(reserved: Reservations, s: Store, u: Store, k: string, watched: bool) {
    && k in s.kanaries && k in u.kanaries && u.kanaries[k].status == s.kanaries[k].status
    && SpecAllowed(reserved, k, u.kanaries[k].spec)
    && ConfigMapAlike(ConfigMapName(k), s.configMaps, s.configWrites, u.configMaps, u.configWrites)
    && DeploymentAlike(ProxyName(k), s.deployments, s.rolls, u.deployments, u.rolls)
    && (forall n :: n in reserved && reserved[n] == k ==> (n in s.services <==> n in u.services))
    && (watched ==> RefsHeld(k, s.endpoints, u.endpoints))
  }

  lemma UnmovedIsSettled(reserved: Reservations, printer: WeightPrinter, s: Store, u: Store, k: string, watched: bool)
    requires Settled(reserved, printer, s, k, watched) && Unmoved(reserved, s, u, k, watched)
    ensures Settled(reserved, printer, u, k, watched)
  {
    hide Wrap64, Itoa, ConfigFor, ProxyName, ConfigMapName;
  }

  /** What the store looks like after the deletion of k. */
  lemma DeletedShape(s: Store, k: string, script: seq<Tick>)
    requires WellKeyed(s) && k in s.kanaries && UndisturbedDeletion(WithoutKanary(s, k), s.kanaries[k], script)
    ensures var u := AfterDeletion(s, k, script);
            && u == s.(rev := u.rev, kanaries := s.kanaries - {k}, endpoints := u.endpoints)
            && EndpointsKeyed(u.endpoints) && RefsStruck(k, s.endpoints, u.endpoints) && Versioned(u)
  {
    UndisturbedParts(WithoutKanary(s, k), s.kanaries[k], script);
    hide RunDeletion, RefsStruck, UndisturbedDeletion, RecentDeletion, Versioned, Fits;
    DeletionStrikes(s.endpoints.Values, WithoutKanary(s, k), s.kanaries[k], 0, script);
  }

  lemma AlikeHolds(k: string, m: EndpointsCache, n: EndpointsCache)
    requires EndpointsAlike(k, m, n)
    ensures RefsHeld(k, m, n)
  {
    forall e | e in m && k in m[e].kanaryRef.Names() ensures k in n[e].kanaryRef.Names() {
      assert SameEndpointsTo(k, m[e], n[e]);
      assert multiset(n[e].kanaryRef.Names())[k] > 0;
    }
  }

  lemma StruckIsReadable(k: string, m: EndpointsCache, n: EndpointsCache)
    requires RefsStruck(k, m, n) && NoneMalformed(m)
    ensures NoneMalformed(n)
  {
  }

  lemma DeletionUnmoved(reserved: Reservations, s: Store, k: string, script: seq<Tick>, j: string, watched: bool)
    requires Sound(s) && k in s.kanaries && UndisturbedDeletion(WithoutKanary(s, k), s.kanaries[k], script)
    requires j in s.kanaries && j != k && SpecAllowed(reserved, j, s.kanaries[j].spec)
    ensures Unmoved(reserved, s, AfterDeletion(s, k, script), j, watched)
  {
    var u := AfterDeletion(s, k, script);
    DeletedShape(s, k, script);
    hide AfterDeletion, RefsStruck, RefsHeld, NoneMalformed, ProxyName, ConfigMapName, UndisturbedDeletion, Versioned, SpecAllowed;
    RefsStruckAlike(k, s.endpoints, u.endpoints, j);
    AlikeHolds(j, s.endpoints, u.endpoints);
  }

  lemma CollectionSparesOthers(reserved: Reservations, s: Store, k: string, services: set<string>, j: string,
                               watched: bool)
    requires j in s.kanaries && k != j && SpecAllowed(reserved, j, s.kanaries[j].spec)
    requires forall n :: n in services ==> n in reserved && reserved[n] == k
    ensures Unmoved(reserved, s, Collected(s, k, services), j, watched)
  {
    DerivedNamesInjective(j, k);
    hide ConfigMapName, ProxyName, SpecAllowed;
  }

  lemma ClusterEventUnmoved(reserved: Reservations, printer: WeightPrinter, s: Store, e: CalmEvent, j: string,
                            watched: bool)
    requires Sound(s) && Allowed(reserved, printer, s, e, watched) && j in s.kanaries
    requires SpecAllowed(reserved, j, s.kanaries[j].spec)
    requires e.SetEndpoints? || e.DropEndpoints? || e.BumpDeployment? || e.PutForeign? || e.DropForeign?
    ensures Unmoved(reserved, s, Happen(printer, s, e), j, watched)
  {
    hide ConfigMapName, ProxyName, Count, Sound, SpecAllowed;
  }

  lemma KanaryEventUnmoved(reserved: Reservations, printer: WeightPrinter, s: Store, e: CalmEvent, j: string, watched: bool)
    requires Sound(s) && Allowed(reserved, printer, s, e, watched) && j in s.kanaries
    requires SpecAllowed(reserved, j, s.kanaries[j].spec)
    requires e.CreateKanary? || e.ChangeSpec? || (e.DeleteKanary? && e.k !in s.kanaries)
    ensures Unmoved(reserved, s, Happen(printer, s, e), j, watched)
  {
    hide ConfigMapName, ProxyName, Count, Sound, SpecAllowed;
  }

  /** Whatever the environment does, it leaves the other Kanaries what they look at. */
  lemma EnvironmentUnmoved(reserved: Reservations, printer: WeightPrinter, s: Store, e: CalmEvent, j: string, watched: bool)
    requires Sound(s) && Allowed(reserved, printer, s, e, watched) && !e.SyncOf?
    requires j in s.kanaries && SpecAllowed(reserved, j, s.kanaries[j].spec) && j in Happen(printer, s, e).kanaries
    ensures Unmoved(reserved, s, Happen(printer, s, e), j, watched)
  {
    hide Unmoved, Sound, SpecAllowed, AfterDeletion, UndisturbedDeletion;
    if e.DeleteKanary? && e.k in s.kanaries {
      DeletedShape(s, e.k, e.script) by { SoundParts(s); }
      DeletionUnmoved(reserved, s, e.k, e.script, j, watched);
    } else if e.Collect? {
      CollectionSparesOthers(reserved, s, e.k, e.services, j, watched);
    } else if e.CreateKanary? || e.ChangeSpec? || e.DeleteKanary? {
      KanaryEventUnmoved(reserved, printer, s, e, j, watched);
    } else {
      ClusterEventUnmoved(reserved, printer, s, e, j, watched);
    }
  }

  lemma SoundParts(s: Store)
    requires Sound(s)
    ensures WellKeyed(s) && NoneMalformed(s.endpoints) && Versioned(s)
  {
  }

  lemma EnvironmentKeepsSound(reserved: Reservations, printer: WeightPrinter, s: Store, e: CalmEvent, watched: bool)
    requires Sound(s) && Allowed(reserved, printer, s, e, watched) && !e.SyncOf?
    ensures Sound(Happen(printer, s, e))
  {
    hide AfterDeletion, UndisturbedDeletion, ConfigMapName, ProxyName, SpecAllowed;
    if e.DeleteKanary? && e.k in s.kanaries {
      DeletedShape(s, e.k, e.script);
      StruckIsReadable(e.k, s.endpoints, AfterDeletion(s, e.k, e.script).endpoints);
    }
  }

  lemma OnlyCreationAdds(reserved: Reservations, printer: WeightPrinter, s: Store, e: CalmEvent, k: string, watched: bool)
    requires Sound(s) && Allowed(reserved, printer, s, e, watched) && !e.SyncOf?
    requires k in Happen(printer, s, e).kanaries && k !in s.kanaries
    ensures e.CreateKanary? && e.k == k
  {
    hide AfterDeletion, UndisturbedDeletion;
    if e.DeleteKanary? && e.k in s.kanaries {
      DeletedShape(s, e.k, e.script);
    }
  }

  lemma CreatedIsBlank(reserved: Reservations, printer: WeightPrinter, s: Store, e: CalmEvent, watched: bool)
    requires Allowed(reserved, printer, s, e, watched) && e.CreateKanary?
    ensures var u := Happen(printer, s, e);
            Blank(reserved, u, e.k) && SpecAllowed(reserved, e.k, u.kanaries[e.k].spec)
  {
    hide ConfigMapName, ProxyName, SpecAllowed;
  }

  lemma EnvironmentKeepsGood(reserved: Reservations, printer: WeightPrinter, s: Store, e: CalmEvent, watched: bool)
    requires Good(reserved, printer, s, watched) && Allowed(reserved, printer, s, e, watched) && !e.SyncOf?
    ensures Good(reserved, printer, Happen(printer, s, e), watched)
  {
    hide Allowed, Happen, Sound, Unmoved, SpecAllowed, Blank, Complete;
    var u := Happen(printer, s, e);
    EnvironmentKeepsSound(reserved, printer, s, e, watched);
    forall k | k in u.kanaries ensures Settled(reserved, printer, u, k, watched) {
      if k in s.kanaries {
        EnvironmentUnmoved(reserved, printer, s, e, k, watched);
        UnmovedIsSettled(reserved, printer, s, u, k, watched);
      } else {
        OnlyCreationAdds(reserved, printer, s, e, k, watched);
        CreatedIsBlank(reserved, printer, s, e, watched);
      }
    }
  }

  lemma EventKeepsGood(reserved: Reservations, printer: WeightPrinter, s: Store, e: CalmEvent, watched: bool)
    requires Good(reserved, printer, s, watched) && Allowed(reserved, printer, s, e, watched)
    ensures Good(reserved, printer, Happen(printer, s, e), watched)
  {
    hide Good, AfterDeletion, SyncSeeing, SeesThrough, UndisturbedDeletion;
    if e.SyncOf? {
      SyncKeepsGood(reserved, printer, s, e.k, e.script, watched);
    } else {
      EnvironmentKeepsGood(reserved, printer, s, e, watched);
    }
  }

  // ---------- runs ----------

  ghost predicate Occurs(reserved: Reservations, printer: WeightPrinter, s: Store, e: CalmEvent, next: Store,
                         watched: bool) {
    Allowed(reserved, printer, s, e, watched) && next == Happen(printer, s, e)
  }

  /** The boundaries a fault-free run goes through, from a store without Kanaries. */
  ghost predicate CalmRun(reserved: Reservations, printer: WeightPrinter, states: seq<Store>, events: seq<CalmEvent>,
                          watched: bool) {
    && |states| == |events| + 1
    && Fresh(states[0])
    && forall i {:trigger events[i]} :: 0 <= i < |events| ==>
         Occurs(reserved, printer, states[i], events[i], states[i + 1], watched)
  }

  lemma {:induction false} AlwaysGood(reserved: Reservations, printer: WeightPrinter,
                                      states: seq<Store>, events: seq<CalmEvent>, i: nat, watched: bool)
    requires CalmRun(reserved, printer, states, events, watched) && i < |states|
    ensures Good(reserved, printer, states[i], watched)
    decreases i
  {
    if i == 0 {
    } else {
      hide Good, Allowed, Happen, Fresh;
      AlwaysGood(reserved, printer, states, events, i - 1, watched);
      var e := events[i - 1];
      assert Occurs(reserved, printer, states[i - 1], e, states[i], watched);
      EventKeepsGood(reserved, printer, states[i - 1], e, watched);
    }
  }

  // ---------- what holds at every boundary ----------

  /** The four status parts are all blank or all set. */
  lemma AllBlankOrAllSet(reserved: Reservations, printer: WeightPrinter, states: seq<Store>, events: seq<CalmEvent>,
                         i: nat, k: string)
    requires CalmRun(reserved, printer, states, events, false) && i < |states| && k in states[i].kanaries
    ensures var st := states[i].kanaries[k].status;
            var d := st.destination;
            || (st.endpoints == [] && d.configName == "" && d.proxyName == "" && d.serviceName == "")
            || (st.endpoints != [] && d.configName != "" && d.proxyName != "" && d.serviceName != "")
  {
    AlwaysGood(reserved, printer, states, events, i, false);
    assert Settled(reserved, printer, states[i], k, false);
  }

  /** The published configuration is the rendering of the recorded status, and the
      proxy's revision counts the configuration writes. */
  lemma ConfigAgrees(reserved: Reservations, printer: WeightPrinter, states: seq<Store>, events: seq<CalmEvent>,
                     i: nat, k: string)
    requires CalmRun(reserved, printer, states, events, false) && i < |states| && k in states[i].kanaries
    requires states[i].kanaries[k].status.destination.configName != ""
    ensures var u := states[i];
            var st := u.kanaries[k].status;
            && st.destination.configName in u.configMaps && st.destination.proxyName in u.deployments
            && u.configMaps[st.destination.configName].config == Render(printer, Backends(FloatShare, st.endpoints))
            && var writes := Count(u.configWrites, st.destination.configName);
               && writes == 1 + Count(u.rolls, st.destination.proxyName)
               && Atoi(u.deployments[st.destination.proxyName].revision) == Some(Wrap64(writes))
  {
    AlwaysGood(reserved, printer, states, events, i, false);
    var u := states[i];
    assert Settled(reserved, printer, u, k, false);
    AtoiItoa(Wrap64(Count(u.configWrites, ConfigMapName(k))));
    hide Atoi, Itoa, Wrap64, Render;
  }

  lemma SyncServesAddresses(reserved: Reservations, printer: WeightPrinter, s: Store, k: string)
    requires Good(reserved, printer, s, false) && k in s.kanaries
    requires ExpectedOf(s.kanaries[k].spec.routes, s.endpoints).Some?
    ensures AddressesServed(printer, Sync(printer, s, k), k, ExpectedOf(s.kanaries[k].spec.routes, s.endpoints).value)
  {
    SyncOutcome(reserved, printer, s, k, false);
    hide Sync, Render, ExpectedOf, FloatShare, AddressServed, AddressReached, StatusCovers, WordStatus, Good;
    var exp := ExpectedOf(s.kanaries[k].spec.routes, s.endpoints).value;
    var recorded := Sync(printer, s, k).kanaries[k].status.endpoints;
    forall i, ip | 0 <= i < |exp| && ip in exp[i].ips ensures AddressServed(FloatShare, recorded, exp[i], ip) {
      CoveredAddressServed(FloatShare, exp, recorded, i, ip);
    }
    if WordStatus(recorded) && PrintsWords(printer) {
      forall i, ip | 0 <= i < |exp| && ip in exp[i].ips
        ensures AddressReached(printer, Render(printer, Backends(FloatShare, recorded)), exp[i], ip)
      {
        ServedIsReached(printer, recorded, exp[i], ip);
      }
    }
  }

  /** The published configuration of k is the rendering of servers among which every
      address of exp has one, named after its service and carrying that service's
      weight, divided by the number of addresses recorded for it. If names, addresses and
      printed weights are words, whoever reads the text finds it among the servers that
      traffic to port 80 reaches. */
  ghost predicate AddressesServed(printer: WeightPrinter, s: Store, k: string, exp: seq<KanaryEndpointList>) {
    && k in s.kanaries && ConfigMapName(k) in s.configMaps
    && var recorded := s.kanaries[k].status.endpoints;
       && s.configMaps[ConfigMapName(k)].config == Render(printer, Backends(FloatShare, recorded))
       && (forall i, ip :: 0 <= i < |exp| && ip in exp[i].ips ==> AddressServed(FloatShare, recorded, exp[i], ip))
       && (WordStatus(recorded) && PrintsWords(printer) ==>
             forall i, ip :: 0 <= i < |exp| && ip in exp[i].ips ==>
               AddressReached(printer, s.configMaps[ConfigMapName(k)].config, exp[i], ip))
  }

  /** After every sync that could build its expectation, every expected address is
      served by the published configuration. */
  lemma EveryAddressIsServed(reserved: Reservations, printer: WeightPrinter, states: seq<Store>, events: seq<CalmEvent>,
                             i: nat, k: string)
    requires CalmRun(reserved, printer, states, events, false) && i < |events| && events[i].SyncOf? && events[i].k == k
    requires k in states[i].kanaries && ExpectedOf(states[i].kanaries[k].spec.routes, states[i].endpoints).Some?
    ensures AddressesServed(printer, states[i + 1], k,
                            ExpectedOf(states[i].kanaries[k].spec.routes, states[i].endpoints).value)
  {
    AlwaysGood(reserved, printer, states, events, i, false);
    GoodParts(reserved, printer, states[i], false);
    assert Occurs(reserved, printer, states[i], events[i], states[i + 1], false);
    hide Sync, Good, AddressesServed, ExpectedOf, SyncSeeing, SeesThrough, CalmRun, WellKeyed, Versioned;
    SeesThroughIsSync(printer, states[i], k, events[i].script);
    SyncServesAddresses(reserved, printer, states[i], k);
  }

  lemma GoodParts(reserved: Reservations, printer: WeightPrinter, s: Store, watched: bool)
    requires Good(reserved, printer, s, watched)
    ensures WellKeyed(s) && NoneMalformed(s.endpoints) && Versioned(s)
  {
  }

  /** While Endpoints objects persist, every one of them lists each Kanary whose
      status names it, and its update wakes such a Kanary exactly when no dangling
      name stands before it in the list. */
  lemma UpdatesWakeListeners(reserved: Reservations, printer: WeightPrinter, states: seq<Store>, events: seq<CalmEvent>,
                             i: nat, k: string, j: nat)
    requires CalmRun(reserved, printer, states, events, true) && i < |states| && k in states[i].kanaries
    requires j < |states[i].kanaries[k].status.endpoints|
    ensures var u := states[i];
            var n := u.kanaries[k].status.endpoints[j].serviceName;
            && n in u.endpoints
            && var names := u.endpoints[n].kanaryRef.Names();
               && k in names
               && (k in LivePrefix(names, u.kanaries.Keys) <==> ComesUp(names, u.kanaries.Keys, k))
               && ((forall m :: m in names ==> m in u.kanaries) ==> ComesUp(names, u.kanaries.Keys, k))
  {
    AlwaysGood(reserved, printer, states, events, i, true);
    var u := states[i];
    assert Settled(reserved, printer, u, k, true);
    WokenExactly(u.endpoints[u.kanaries[k].status.endpoints[j].serviceName].kanaryRef.Names(), u.kanaries.Keys, k);
  }

  // ---------- where staging needs routes ----------

  /** The code does not reject an empty route list, and then the stages do not hold:
      for a blank Kanary whose expectation can be built, one fault-free sync leaves
      a proxy recorded without any configuration, whose pods mount none, exactly when it
      has no route. */
  lemma StagingNeedsRoutes(reserved: Reservations, printer: WeightPrinter, s: Store, k: string)
    requires WellKeyed(s) && NoneMalformed(s.endpoints) && Blank(reserved, s, k)
    requires var spec := s.kanaries[k].spec;
             spec.destination != "" && spec.destination in reserved && reserved[spec.destination] == k
    requires ExpectedOf(s.kanaries[k].spec.routes, s.endpoints).Some?
    ensures var u := Sync(printer, s, k);
            && k in u.kanaries
            && var d := u.kanaries[k].status.destination;
               && d.proxyName != "" && (d.configName == "" <==> s.kanaries[k].spec.routes == [])
               && (d.configName == "" ==> d.proxyName in u.deployments && u.deployments[d.proxyName].configVolume == "")
  {
    var ky := s.kanaries[k];
    if ky.spec.routes != [] {
      SyncOutcome(reserved, printer, s, k, false);
    } else {
      assert Start(printer, s, k) == CreateProxy(ky);
      ProxyThenService(s, k);
    }
  }

  /** A sync that skips the configuration and finds neither proxy nor service makes
      and records both. */
  lemma ProxyThenService(s: Store, k: string)
    requires WellKeyed(s) && k in s.kanaries && ProxyName(k) !in s.deployments
    requires var ky := s.kanaries[k];
             && ky.status.destination.serviceName == "" && ky.spec.destination != ""
             && ky.spec.destination !in s.services
    ensures var ky := s.kanaries[k];
            var (u, err) := Run(s, CreateProxy(ky), []);
            && !err && u.endpoints == s.endpoints && u.configMaps == s.configMaps
            && k in u.kanaries && u.kanaries[k].spec == ky.spec
            && u.kanaries[k].status == ky.WithProxyName(ProxyName(k)).WithServiceName(ky.spec.destination).status
            && ProxyName(k) in u.deployments && ky.spec.destination in u.services
            && u.deployments[ProxyName(k)].configVolume == ky.status.destination.configName
  {
    var ky := s.kanaries[k];
    hide Run, Count, Counted, NewService, NewDeployment;
    var (s1, t1) := Step(s, CreateProxy(ky), CALM);
    CalmStep(s, CreateProxy(ky));
    NewNames(ky);
    assert t1 == RecordProxy(ky) && s1.kanaries == s.kanaries && s1.services == s.services;
    var (s2, t2) := Step(s1, t1, CALM);
    CalmStep(s1, t1);
    var ky2 := s2.kanaries[k];
    NewNames(ky2);
    assert t2 == PublishService(ky2) && ky2.spec == ky.spec && s2.services == s.services;
    var (s3, t3) := Step(s2, t2, CALM);
    CalmStep(s2, t2);
    assert t3 == RecordService(ky2) && s3.kanaries == s2.kanaries;
    CalmStep(s3, t3);
    NothingLeft(Step(s3, t3, CALM).0);
  }

  lemma NewNames(ky: Kanary)
    ensures NewDeployment(ky).name == ProxyName(ky.name) && NewService(ky).name == ky.spec.destination
    ensures NewDeployment(ky).configVolume == ky.status.destination.configName
  {
  }

  lemma CalmStep(s: Store, t: Task)
    requires !t.Done?
    ensures Run(s, t, []) == Run(Step(s, t, CALM).0, Step(s, t, CALM).1, [])
  {
  }

  lemma NothingLeft(s: Store)
    ensures Run(s, Done(false), []) == (s, false)
  {
  }
}
