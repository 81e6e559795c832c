/** What one fault-free sync reads and writes, and that the syncs of two Kanaries
    with disjoint destinations commute. */
module NonInterference {
  import opened KanaryTypes
  import opened EndpointDiff
  import opened ExpectedStatus
  import opened ConfigText
  import opened BackRefs
  import opened ApiStore
  import opened SyncProtocol

  // ---------- objects, up to their versions ----------

  ghost predicate SameKanary(a: Kanary, b: Kanary) {
    a.name == b.name && a.spec == b.spec && a.status == b.status
  }

  ghost predicate SameDeployment(a: Deployment, b: Deployment) {
    a == b.(version := a.version)
  }

  /** The same Endpoints object as far as name k is concerned: its list holds k
      equally often. */
  ghost predicate SameEndpointsTo(k: string, a: Endpoints, b: Endpoints) {
    && a.subsets == b.subsets
    && (a.kanaryRef.Malformed? <==> b.kanaryRef.Malformed?)
    && multiset(a.kanaryRef.Names())[k] == multiset(b.kanaryRef.Names())[k]
  }

  /** Every object is stored under its own name, and no Deployment is nameless. */
  ghost predicate WellKeyed(s: Store) {
    && KanariesKeyed(s.kanaries)
    && EndpointsKeyed(s.endpoints)
    && DeploymentsKeyed(s.deployments)
  }

  ghost predicate KanariesKeyed(m: map<string, Kanary>) {
    forall n :: n in m ==> m[n].name == n
  }

  ghost predicate EndpointsKeyed(m: map<string, Endpoints>) {
    forall n :: n in m ==> m[n].name == n
  }

  ghost predicate DeploymentsKeyed(m: map<string, Deployment>) {
    "" !in m && forall n :: n in m ==> m[n].name == n
  }

  // ---------- two stores that look alike to Kanary k ----------

  ghost predicate KanaryAlike(k: string, m: map<string, Kanary>, n: map<string, Kanary>) {
    (k in m <==> k in n) && (k in m ==> SameKanary(m[k], n[k]))
  }

  ghost predicate EndpointsAlike(k: string, m: EndpointsCache, n: EndpointsCache) {
    m.Keys == n.Keys && forall e :: e in m ==> SameEndpointsTo(k, m[e], n[e])
  }

  ghost predicate ConfigMapAlike(c: string, m: map<string, ConfigMap>, x: Counts, n: map<string, ConfigMap>, y: Counts) {
    (c in m <==> c in n) && (c in m ==> m[c] == n[c]) && Count(x, c) == Count(y, c)
  }

  ghost predicate DeploymentAlike(d: string, m: map<string, Deployment>, x: Counts, n: map<string, Deployment>,
                                  y: Counts) {
    (d in m <==> d in n) && (d in m ==> SameDeployment(m[d], n[d])) && Count(x, d) == Count(y, d)
  }

  ghost predicate ServiceAlike(v: string, m: map<string, Service>, n: map<string, Service>) {
    (v in m <==> v in n) && (v in m ==> m[v] == n[v])
  }

  ghost predicate ServicesAlike(ds: set<string>, m: map<string, Service>, n: map<string, Service>) {
    forall v :: v in ds ==> ServiceAlike(v, m, n)
  }

  ghost predicate Alike(k: string, ds: set<string>, s: Store, u: Store) {
    && KanaryAlike(k, s.kanaries, u.kanaries)
    && EndpointsAlike(k, s.endpoints, u.endpoints)
    && ConfigMapAlike(ConfigMapName(k), s.configMaps, s.configWrites, u.configMaps, u.configWrites)
    && DeploymentAlike(ProxyName(k), s.deployments, s.rolls, u.deployments, u.rolls)
    && ServicesAlike(ds, s.services, u.services)
  }

  ghost predicate TasksAlike(t: Task, v: Task) {
    match (t, v)
    case (Done(e), Done(f)) => e == f
    case (WriteConfig(a, e, c), WriteConfig(b, f, d)) => SameKanary(a, b) && e == f && c == d
    case (ReadProxy(a, e), ReadProxy(b, f)) => SameKanary(a, b) && e == f
    case (RollProxy(a, e, d), RollProxy(b, f, g)) => SameKanary(a, b) && e == f && SameDeployment(d, g)
    case (RecordConfig(a, e), RecordConfig(b, f)) => SameKanary(a, b) && e == f
    case (RecordEndpoints(a, e), RecordEndpoints(b, f)) => SameKanary(a, b) && e == f
    case (AddRefs(a, i), AddRefs(b, j)) => SameKanary(a, b) && i == j
    case (CreateProxy(a), CreateProxy(b)) => SameKanary(a, b)
    case (RecordProxy(a), RecordProxy(b)) => SameKanary(a, b)
    case (RemoveService(a), RemoveService(b)) => SameKanary(a, b)
    case (PublishService(a), PublishService(b)) => SameKanary(a, b)
    case (RecordService(a), RecordService(b)) => SameKanary(a, b)
    case _ => false
  }

  /** The Kanary's current and recorded destinations are among ds, and its proxy
      is the one named after it. */
  ghost predicate Within(ky: Kanary, ds: set<string>) {
    && ky.spec.destination in ds
    && (ky.status.destination.serviceName != "" ==> ky.status.destination.serviceName in ds)
    && (ky.status.destination.proxyName == "" || ky.status.destination.proxyName == ProxyName(ky.name))
  }

  /** The task works for Kanary k on copies that are current in s. */
  ghost predicate Current(k: string, ds: set<string>, s: Store, t: Task) {
    && (!t.Done? ==> t.ky.name == k && k in s.kanaries && s.kanaries[k] == t.ky && Within(t.ky, ds))
    && (t.RollProxy? ==> t.deployment.name == ProxyName(k) && ProxyName(k) in s.deployments
                         && s.deployments[ProxyName(k)] == t.deployment)
    && (t.RemoveService? ==> t.ky.status.destination.serviceName != "")
  }

  // ---------- what a sync leaves alone ----------

  ghost predicate KanariesKept(k: string, m: map<string, Kanary>, n: map<string, Kanary>) {
    forall j :: j != k ==> (j in m <==> j in n) && (j in m ==> m[j] == n[j])
  }

  /** At most, k has come in at the end of the list. */
  ghost predicate Appended(k: string, a: Annotation, b: Annotation) {
    b == a || (!a.Malformed? && k !in a.Names() && b == Refs(a.Names() + [k]))
  }

  /** Of the Endpoints objects, only the kanaryRef lists may have grown by k. */
  ghost predicate EndpointsKept(k: string, m: EndpointsCache, n: EndpointsCache) {
    && m.Keys == n.Keys
    && forall e :: e in m ==> m[e].subsets == n[e].subsets && Appended(k, m[e].kanaryRef, n[e].kanaryRef)
  }

  lemma EndpointsKeptTransitive(k: string, m: EndpointsCache, n: EndpointsCache, p: EndpointsCache)
    requires EndpointsKept(k, m, n) && EndpointsKept(k, n, p)
    ensures EndpointsKept(k, m, p)
  {
    forall e | e in m ensures m[e].subsets == p[e].subsets && Appended(k, m[e].kanaryRef, p[e].kanaryRef) {
      assert Appended(k, m[e].kanaryRef, n[e].kanaryRef) && Appended(k, n[e].kanaryRef, p[e].kanaryRef);
    }
  }

  /** Other names do not notice. */
  lemma EndpointsKeptAlike(k: string, m: EndpointsCache, n: EndpointsCache, j: string)
    requires EndpointsKept(k, m, n) && j != k
    ensures EndpointsAlike(j, m, n)
  {
    forall e | e in m ensures SameEndpointsTo(j, m[e], n[e]) {
      assert Appended(k, m[e].kanaryRef, n[e].kanaryRef);
    }
  }

  ghost predicate ConfigMapsKept(k: string, m: map<string, ConfigMap>, x: Counts, n: map<string, ConfigMap>, y: Counts) {
    forall c :: c != ConfigMapName(k) ==> ConfigMapAlike(c, m, x, n, y)
  }

  ghost predicate DeploymentsKept(k: string, m: map<string, Deployment>, x: Counts, n: map<string, Deployment>,
                                  y: Counts) {
    forall d :: d != ProxyName(k) ==> DeploymentAlike(d, m, x, n, y)
  }

  ghost predicate ServicesKept(ds: set<string>, m: map<string, Service>, n: map<string, Service>) {
    forall v :: v !in ds ==> ServiceAlike(v, m, n)
  }

  /** Everything a sync of k with destinations ds does not own is the same in both. */
  ghost predicate OthersKept(k: string, ds: set<string>, s: Store, u: Store) {
    && KanariesKept(k, s.kanaries, u.kanaries)
    && EndpointsKept(k, s.endpoints, u.endpoints)
    && ConfigMapsKept(k, s.configMaps, s.configWrites, u.configMaps, u.configWrites)
    && DeploymentsKept(k, s.deployments, s.rolls, u.deployments, u.rolls)
    && ServicesKept(ds, s.services, u.services)
  }

  lemma KeptReflexive(k: string, ds: set<string>, s: Store)
    ensures OthersKept(k, ds, s, s)
  {
  }

  lemma KeptTransitive(k: string, ds: set<string>, s: Store, u: Store, w: Store)
    requires OthersKept(k, ds, s, u) && OthersKept(k, ds, u, w)
    ensures OthersKept(k, ds, s, w)
  {
    forall c | c != ConfigMapName(k)
      ensures ConfigMapAlike(c, s.configMaps, s.configWrites, w.configMaps, w.configWrites)
    {
      assert ConfigMapAlike(c, s.configMaps, s.configWrites, u.configMaps, u.configWrites);
      assert ConfigMapAlike(c, u.configMaps, u.configWrites, w.configMaps, w.configWrites);
    }
    forall d | d != ProxyName(k) ensures DeploymentAlike(d, s.deployments, s.rolls, w.deployments, w.rolls) {
      assert DeploymentAlike(d, s.deployments, s.rolls, u.deployments, u.rolls);
      assert DeploymentAlike(d, u.deployments, u.rolls, w.deployments, w.rolls);
    }
    forall v | v !in ds ensures ServiceAlike(v, s.services, w.services) {
      assert ServiceAlike(v, s.services, u.services) && ServiceAlike(v, u.services, w.services);
    }
    EndpointsKeptTransitive(k, s.endpoints, u.endpoints, w.endpoints);
  }

  lemma AddRefAppends(a: Annotation, owner: string)
    requires AddRef(a, owner).Some?
    ensures !a.Malformed? && !AddRef(a, owner).value.Malformed? && Appended(owner, a, AddRef(a, owner).value)
    ensures var (before, after) := (multiset(a.Names())[owner], multiset(AddRef(a, owner).value.Names())[owner]);
            after == if before == 0 then 1 else before
  {
    assert [] + [owner] == [owner];
  }

  lemma EndpointsPutKeeps(k: string, m: EndpointsCache, ep: Endpoints)
    requires ep.name in m && ep.subsets == m[ep.name].subsets && Appended(k, m[ep.name].kanaryRef, ep.kanaryRef)
    ensures EndpointsKept(k, m, m[ep.name := ep])
  {
  }

  lemma ConfigMapPutKeeps(k: string, m: map<string, ConfigMap>, x: Counts, cm: ConfigMap)
    requires cm.name == ConfigMapName(k)
    ensures ConfigMapsKept(k, m, x, m[cm.name := cm], Counted(x, cm.name))
  {
  }

  lemma DeploymentPutKeeps(k: string, m: map<string, Deployment>, x: Counts, d: Deployment)
    requires d.name == ProxyName(k)
    ensures DeploymentsKept(k, m, x, m[d.name := d], x)
    ensures DeploymentsKept(k, m, x, m[d.name := d], Counted(x, d.name))
  {
  }

  lemma ServicePutKeeps(ds: set<string>, m: map<string, Service>, svc: Service)
    requires svc.name in ds
    ensures ServicesKept(ds, m, m[svc.name := svc])
    ensures ServicesKept(ds, m, m - {svc.name})
  {
  }

  lemma AddKanaryRefKeeps(k: string, ds: set<string>, s: Store, service: string)
    requires EndpointsKeyed(s.endpoints)
    ensures OthersKept(k, ds, s, AddKanaryRef(s, s.endpoints, service, k).store)
  {
    KeptReflexive(k, ds, s);
    if service in s.endpoints && AddRef(s.endpoints[service].kanaryRef, k).Some? {
      var ep := s.endpoints[service].(kanaryRef := AddRef(s.endpoints[service].kanaryRef, k).value, version := s.rev + 1);
      AddRefAppends(s.endpoints[service].kanaryRef, k);
      EndpointsPutKeeps(k, s.endpoints, ep);
      hide AddRef;
    }
  }

  lemma StepKeepsOthers(k: string, ds: set<string>, s: Store, t: Task)
    requires !t.Done? && WellKeyed(s) && Current(k, ds, s, t)
    ensures OthersKept(k, ds, s, Step(s, t, CALM).0)
  {
    hide ConfigMapsKept, DeploymentsKept, ServicesKept, EndpointsKept, Rolled, AddKanaryRef, Count, Counted;
    KeptReflexive(k, ds, s);
    var ky := t.ky;
    match t
    case WriteConfig(_, _, config) => ConfigMapPutKeeps(k, s.configMaps, s.configWrites, NewConfigMap(ky, config));
    case RollProxy(_, _, d) =>
      RolledName(d);
      DeploymentPutKeeps(k, s.deployments, s.rolls, Rolled(d).(version := s.rev + 1));
    case CreateProxy(_) => DeploymentPutKeeps(k, s.deployments, s.rolls, NewDeployment(ky).(version := s.rev + 1));
    case RemoveService(_) => ServicePutKeeps(ds, s.services, Service(ky.status.destination.serviceName, ""));
    case PublishService(_) => ServicePutKeeps(ds, s.services, NewService(ky));
    case AddRefs(_, next) =>
      if next < |ky.status.endpoints| {
        AddKanaryRefKeeps(k, ds, s, ky.status.endpoints[next].serviceName);
      }
    case _ =>
  }

  lemma PutsKeepKeyed(s: Store, ky: Kanary, ep: Endpoints, d: Deployment)
    requires WellKeyed(s)
    ensures KanariesKeyed(s.kanaries[ky.name := ky])
    ensures EndpointsKeyed(s.endpoints[ep.name := ep])
    ensures d.name != "" ==> DeploymentsKeyed(s.deployments[d.name := d])
  {
  }

  lemma UpdatesKeepKeyed(s: Store, ky: Kanary, ep: Endpoints, d: Deployment)
    requires WellKeyed(s)
    ensures WellKeyed(UpdateKanary(s, ky).store) && WellKeyed(UpdateEndpoints(s, ep).store)
    ensures d.name != "" ==> WellKeyed(CreateDeployment(s, d).store)
    ensures WellKeyed(UpdateDeployment(s, d).store)
  {
    assert d.name in s.deployments ==> d.name != "";
    hide KanariesKeyed, EndpointsKeyed, DeploymentsKeyed;
    PutsKeepKeyed(s, ky.(version := s.rev + 1), ep.(version := s.rev + 1), d.(version := s.rev + 1));
  }

  lemma AddKanaryRefKeepsKeyed(s: Store, cache: EndpointsCache, service: string, owner: string)
    requires WellKeyed(s)
    ensures WellKeyed(AddKanaryRef(s, cache, service, owner).store)
  {
    if service in cache && AddRef(cache[service].kanaryRef, owner).Some? {
      var ep := cache[service].(kanaryRef := AddRef(cache[service].kanaryRef, owner).value);
      UpdatesKeepKeyed(s, Kanary("", 0, KanarySpec("", []), BLANK_STATUS), ep, Deployment("", 0, "", "", ""));
      hide UpdateEndpoints;
    }
  }

  lemma StatusStepKeepsKeyed(s: Store, t: Task, tick: Tick)
    requires WellKeyed(s) && (t.RecordConfig? || t.RecordEndpoints? || t.RecordProxy? || t.RecordService?)
    ensures WellKeyed(Step(s, t, tick).0)
  {
    hide WellKeyed, UpdateKanary;
    var ky := t.ky;
    var ep, d := Endpoints("", 0, [], Absent), Deployment("", 0, "", "", "");
    match t
    case RecordConfig(_, _) => UpdatesKeepKeyed(s, ky.WithConfigName(ConfigMapName(ky.name)), ep, d);
    case RecordEndpoints(_, expected) => UpdatesKeepKeyed(s, ky.WithEndpoints(expected), ep, d);
    case RecordProxy(_) => UpdatesKeepKeyed(s, ky.WithProxyName(ProxyName(ky.name)), ep, d);
    case RecordService(_) => UpdatesKeepKeyed(s, ky.WithServiceName(ky.spec.destination), ep, d);
  }

  lemma ProxyStepKeepsKeyed(s: Store, t: Task, tick: Tick)
    requires WellKeyed(s) && (t.ReadProxy? || t.RollProxy? || t.CreateProxy?)
    ensures WellKeyed(Step(s, t, tick).0)
  {
    hide WellKeyed, CreateDeployment, UpdateDeployment, Rolled;
    var ep := Endpoints("", 0, [], Absent);
    match t
    case ReadProxy(_, _) =>
    case RollProxy(_, _, d) => UpdatesKeepKeyed(s, t.ky, ep, Rolled(d));
    case CreateProxy(_) => UpdatesKeepKeyed(s, t.ky, ep, NewDeployment(t.ky));
  }

  lemma OtherStepKeepsKeyed(s: Store, t: Task, tick: Tick)
    requires WellKeyed(s) && (t.WriteConfig? || t.RemoveService? || t.PublishService? || t.AddRefs?)
    ensures WellKeyed(Step(s, t, tick).0)
  {
    hide KanariesKeyed, EndpointsKeyed, DeploymentsKeyed, AddKanaryRef;
    if t.AddRefs? && t.next < |t.ky.status.endpoints| {
      AddKanaryRefKeepsKeyed(s, tick.cache.GetOr(s.endpoints), t.ky.status.endpoints[t.next].serviceName, t.ky.name);
    }
  }

  lemma StepKeepsKeyed(s: Store, t: Task, tick: Tick)
    requires !t.Done? && WellKeyed(s)
    ensures WellKeyed(Step(s, t, tick).0)
  {
    hide *;
    if t.RecordConfig? || t.RecordEndpoints? || t.RecordProxy? || t.RecordService? {
      StatusStepKeepsKeyed(s, t, tick);
    } else if t.ReadProxy? || t.RollProxy? || t.CreateProxy? {
      ProxyStepKeepsKeyed(s, t, tick);
    } else {
      OtherStepKeepsKeyed(s, t, tick);
    }
  }

  lemma StepKeepsCurrent(k: string, ds: set<string>, s: Store, t: Task)
    requires !t.Done? && WellKeyed(s) && Current(k, ds, s, t)
    ensures Current(k, ds, Step(s, t, CALM).0, Step(s, t, CALM).1)
  {
    hide Rolled, AddKanaryRef, Counted, NewConfigMap, NewDeployment, NewService, KanariesKeyed, EndpointsKeyed;
    if t.AddRefs? && t.next < |t.ky.status.endpoints| {
      AddKanaryRefOnly(s, s.endpoints, t.ky.status.endpoints[t.next].serviceName, k);
    }
  }

  // ---------- a sync sees only its own part ----------

  lemma AddRefAlike(k: string, x: Endpoints, y: Endpoints, v: nat, v': nat)
    requires SameEndpointsTo(k, x, y)
    ensures AddRef(x.kanaryRef, k).Some? <==> AddRef(y.kanaryRef, k).Some?
    ensures AddRef(x.kanaryRef, k).Some? ==>
              SameEndpointsTo(k, x.(kanaryRef := AddRef(x.kanaryRef, k).value, version := v),
                              y.(kanaryRef := AddRef(y.kanaryRef, k).value, version := v'))
  {
    if AddRef(x.kanaryRef, k).Some? {
      AddRefAppends(x.kanaryRef, k);
      AddRefAppends(y.kanaryRef, k);
      hide AddRef, Appended;
    }
  }

  lemma EndpointsPutAlike(k: string, m: EndpointsCache, n: EndpointsCache, x: Endpoints, y: Endpoints)
    requires EndpointsAlike(k, m, n) && x.name == y.name && SameEndpointsTo(k, x, y)
    ensures EndpointsAlike(k, m[x.name := x], n[y.name := y])
  {
    hide SameEndpointsTo;
  }

  lemma AlikeAt(k: string, m: EndpointsCache, n: EndpointsCache, service: string)
    requires EndpointsKeyed(m) && EndpointsKeyed(n) && EndpointsAlike(k, m, n)
    ensures service in m <==> service in n
    ensures service in m ==> m[service].name == service && n[service].name == service
                             && SameEndpointsTo(k, m[service], n[service])
  {
  }

  lemma AddKanaryRefAlike(k: string, s: Store, u: Store, service: string)
    requires EndpointsKeyed(s.endpoints) && EndpointsKeyed(u.endpoints) && EndpointsAlike(k, s.endpoints, u.endpoints)
    ensures var a, b := AddKanaryRef(s, s.endpoints, service, k), AddKanaryRef(u, u.endpoints, service, k);
            EndpointsAlike(k, a.store.endpoints, b.store.endpoints) && (a.reply.None? <==> b.reply.None?)
  {
    hide AddRef, EndpointsAlike, SameEndpointsTo, EndpointsKeyed;
    AlikeAt(k, s.endpoints, u.endpoints, service);
    if service in s.endpoints {
      var x, y := s.endpoints[service], u.endpoints[service];
      AddRefAlike(k, x, y, s.rev + 1, u.rev + 1);
      if AddRef(x.kanaryRef, k).Some? {
        EndpointsPutAlike(k, s.endpoints, u.endpoints, x.(kanaryRef := AddRef(x.kanaryRef, k).value, version := s.rev + 1),
                          y.(kanaryRef := AddRef(y.kanaryRef, k).value, version := u.rev + 1));
      }
    }
  }

  lemma AddKanaryRefOnly(s: Store, cache: EndpointsCache, service: string, owner: string)
    ensures var u := AddKanaryRef(s, cache, service, owner).store;
            u == s.(rev := u.rev, endpoints := u.endpoints)
  {
  }

  lemma RolledAlike(d: Deployment, g: Deployment)
    requires SameDeployment(d, g)
    ensures SameDeployment(Rolled(d), Rolled(g))
  {
  }

  lemma ServicesPutAlike(ds: set<string>, m: map<string, Service>, n: map<string, Service>, svc: Service)
    requires ServicesAlike(ds, m, n)
    ensures ServicesAlike(ds, m[svc.name := svc], n[svc.name := svc])
    ensures ServicesAlike(ds, m - {svc.name}, n - {svc.name})
    ensures svc.name in ds ==> (svc.name in m <==> svc.name in n)
  {
    forall v | v in ds
      ensures ServiceAlike(v, m[svc.name := svc], n[svc.name := svc]) && ServiceAlike(v, m - {svc.name}, n - {svc.name})
    {
      assert ServiceAlike(v, m, n);
    }
    assert svc.name in ds ==> ServiceAlike(svc.name, m, n);
  }

  /** Two tasks that look alike, on current copies, in two stores that look alike. */
  ghost predicate InStep(k: string, ds: set<string>, s: Store, t: Task, u: Store, v: Task) {
    && WellKeyed(s) && WellKeyed(u)
    && Current(k, ds, s, t) && Current(k, ds, u, v)
    && Alike(k, ds, s, u) && TasksAlike(t, v)
  }

  ghost predicate AlikeAfter(k: string, ds: set<string>, r: (Store, Task), q: (Store, Task)) {
    Alike(k, ds, r.0, q.0) && TasksAlike(r.1, q.1)
  }

  lemma ConfigMapPutAlike(m: map<string, ConfigMap>, x: Counts, n: map<string, ConfigMap>, y: Counts, cm: ConfigMap)
    requires ConfigMapAlike(cm.name, m, x, n, y)
    ensures ConfigMapAlike(cm.name, m[cm.name := cm], Counted(x, cm.name), n[cm.name := cm], Counted(y, cm.name))
    ensures cm.name in m <==> cm.name in n
  {
  }

  lemma ConfigCreateAlike(k: string, ds: set<string>, s: Store, u: Store, cm: ConfigMap)
    requires Alike(k, ds, s, u) && cm.name == ConfigMapName(k)
    ensures Alike(k, ds, CreateConfigMap(s, cm).store, CreateConfigMap(u, cm).store)
    ensures CreateConfigMap(s, cm).reply.None? <==> CreateConfigMap(u, cm).reply.None?
  {
    hide EndpointsAlike, ServicesAlike, DeploymentAlike, KanaryAlike, Counted, ConfigMapName, ConfigMapAlike;
    ConfigMapPutAlike(s.configMaps, s.configWrites, u.configMaps, u.configWrites, cm);
  }

  lemma ConfigUpdateAlike(k: string, ds: set<string>, s: Store, u: Store, cm: ConfigMap)
    requires Alike(k, ds, s, u) && cm.name == ConfigMapName(k)
    ensures Alike(k, ds, UpdateConfigMap(s, cm).store, UpdateConfigMap(u, cm).store)
    ensures UpdateConfigMap(s, cm).reply.None? <==> UpdateConfigMap(u, cm).reply.None?
  {
    hide EndpointsAlike, ServicesAlike, DeploymentAlike, KanaryAlike, Counted, ConfigMapName, ConfigMapAlike;
    ConfigMapPutAlike(s.configMaps, s.configWrites, u.configMaps, u.configWrites, cm);
  }

  lemma StepAlikeConfig(k: string, ds: set<string>, s: Store, t: Task, u: Store, v: Task)
    requires InStep(k, ds, s, t, u, v) && t.WriteConfig?
    ensures AlikeAfter(k, ds, Step(s, t, CALM), Step(u, v, CALM))
  {
    hide Alike, CreateConfigMap, UpdateConfigMap, WellKeyed, ConfigMapName;
    var cm := NewConfigMap(t.ky, t.config);
    assert cm == NewConfigMap(v.ky, v.config);
    ConfigCreateAlike(k, ds, s, u, cm);
    ConfigUpdateAlike(k, ds, s, u, cm);
  }

  lemma StepAlikeStatus(k: string, ds: set<string>, s: Store, t: Task, u: Store, v: Task)
    requires InStep(k, ds, s, t, u, v) && (t.RecordConfig? || t.RecordEndpoints? || t.RecordProxy? || t.RecordService?)
    ensures AlikeAfter(k, ds, Step(s, t, CALM), Step(u, v, CALM))
  {
    hide EndpointsAlike, ServicesAlike, DeploymentAlike, ConfigMapAlike, WellKeyed;
  }

  lemma StepAlikeProxy(k: string, ds: set<string>, s: Store, t: Task, u: Store, v: Task)
    requires InStep(k, ds, s, t, u, v) && (t.ReadProxy? || t.RollProxy? || t.CreateProxy?)
    ensures AlikeAfter(k, ds, Step(s, t, CALM), Step(u, v, CALM))
  {
    hide EndpointsAlike, ServicesAlike, ConfigMapAlike, Rolled;
    if t.RollProxy? {
      RolledName(t.deployment);
      RolledName(v.deployment);
      RolledAlike(t.deployment, v.deployment);
    } else if t.CreateProxy? {
      assert NewDeployment(t.ky) == NewDeployment(v.ky);
      hide NewDeployment;
    }
  }

  lemma StepAlikeService(k: string, ds: set<string>, s: Store, t: Task, u: Store, v: Task)
    requires InStep(k, ds, s, t, u, v) && (t.RemoveService? || t.PublishService?)
    ensures AlikeAfter(k, ds, Step(s, t, CALM), Step(u, v, CALM))
  {
    hide EndpointsAlike, ServicesAlike, DeploymentAlike, ConfigMapAlike, WellKeyed;
    ServicesPutAlike(ds, s.services, u.services,
                     if t.RemoveService? then Service(t.ky.status.destination.serviceName, "") else NewService(t.ky));
  }

  lemma StepAlikeRefs(k: string, ds: set<string>, s: Store, t: Task, u: Store, v: Task)
    requires InStep(k, ds, s, t, u, v) && t.AddRefs?
    ensures AlikeAfter(k, ds, Step(s, t, CALM), Step(u, v, CALM))
  {
    hide EndpointsAlike, ServicesAlike, DeploymentAlike, ConfigMapAlike, WellKeyed, AddKanaryRef, ProxyName, ConfigMapName;
    if t.next < |t.ky.status.endpoints| {
      var service := t.ky.status.endpoints[t.next].serviceName;
      assert EndpointsKeyed(s.endpoints) && EndpointsKeyed(u.endpoints) by {
        KeyedEndpoints(s);
        KeyedEndpoints(u);
      }
      AddKanaryRefAlike(k, s, u, service);
      AddKanaryRefOnly(s, s.endpoints, service, k);
      AddKanaryRefOnly(u, u.endpoints, service, k);
    }
  }

  lemma KeyedEndpoints(s: Store)
    requires WellKeyed(s)
    ensures EndpointsKeyed(s.endpoints)
  {
  }

  /** One call of a sync sees only the Kanary's own part of the store. */
  lemma StepAlike(k: string, ds: set<string>, s: Store, t: Task, u: Store, v: Task)
    requires !t.Done? && InStep(k, ds, s, t, u, v)
    ensures AlikeAfter(k, ds, Step(s, t, CALM), Step(u, v, CALM))
  {
    hide *;
    match t
    case WriteConfig(_, _, _) => StepAlikeConfig(k, ds, s, t, u, v);
    case ReadProxy(_, _) => StepAlikeProxy(k, ds, s, t, u, v);
    case RollProxy(_, _, _) => StepAlikeProxy(k, ds, s, t, u, v);
    case CreateProxy(_) => StepAlikeProxy(k, ds, s, t, u, v);
    case RemoveService(_) => StepAlikeService(k, ds, s, t, u, v);
    case PublishService(_) => StepAlikeService(k, ds, s, t, u, v);
    case AddRefs(_, _) => StepAlikeRefs(k, ds, s, t, u, v);
    case _ => StepAlikeStatus(k, ds, s, t, u, v);
  }

  lemma {:induction false} RunAlike(k: string, ds: set<string>, s: Store, t: Task, u: Store, v: Task)
    requires InStep(k, ds, s, t, u, v)
    ensures Alike(k, ds, Run(s, t, []).0, Run(u, v, []).0)
    decreases Rank(t)
  {
    if t.Done? {
    } else {
      StepAlike(k, ds, s, t, u, v);
      StepKeepsCurrent(k, ds, s, t);
      StepKeepsCurrent(k, ds, u, v);
      StepKeepsKeyed(s, t, CALM);
      StepKeepsKeyed(u, v, CALM);
      hide Step, Alike, Current, WellKeyed;
      RunAlike(k, ds, Step(s, t, CALM).0, Step(s, t, CALM).1, Step(u, v, CALM).0, Step(u, v, CALM).1);
    }
  }

  /** A fault-free sync writes only its own Kanary, ConfigMap, Deployment and
      destinations, and its own name in kanaryRef lists. */
  lemma {:induction false} RunKeepsOthers(k: string, ds: set<string>, s: Store, t: Task)
    requires WellKeyed(s) && Current(k, ds, s, t)
    ensures OthersKept(k, ds, s, Run(s, t, []).0) && WellKeyed(Run(s, t, []).0)
    decreases Rank(t)
  {
    hide OthersKept, WellKeyed, Current;
    if t.Done? {
      KeptReflexive(k, ds, s);
    } else {
      StepKeepsOthers(k, ds, s, t);
      StepKeepsCurrent(k, ds, s, t);
      StepKeepsKeyed(s, t, CALM);
      hide Step;
      var (s', t') := Step(s, t, CALM);
      RunKeepsOthers(k, ds, s', t');
      KeptTransitive(k, ds, s, s', Run(s', t', []).0);
    }
  }

  // ---------- whole syncs ----------

  /** The current and the recorded destination of a Kanary. */
  ghost function Destinations(s: Store, k: string): set<string> {
    if k !in s.kanaries then {}
    else
      var ky := s.kanaries[k];
      {ky.spec.destination}
      + if ky.status.destination.serviceName == "" then {} else {ky.status.destination.serviceName}
  }

  /** A recorded proxy is the one named after its Kanary. */
  ghost predicate OwnProxies(s: Store) {
    forall k :: k in s.kanaries ==>
      s.kanaries[k].status.destination.proxyName == "" || s.kanaries[k].status.destination.proxyName == ProxyName(k)
  }

  function Start(printer: WeightPrinter, s: Store, k: string): Task {
    Begin(printer, if k in s.kanaries then Found(s.kanaries[k]) else NotFound, s.endpoints)
  }

  lemma StartIsCurrent(printer: WeightPrinter, s: Store, k: string, ds: set<string>)
    requires WellKeyed(s) && (k in s.kanaries ==> Within(s.kanaries[k], ds))
    ensures Current(k, ds, s, Start(printer, s, k))
  {
    hide ExpectedOf, Render;
  }

  lemma {:induction false} ExpectedAlike(k: string, routes: seq<KanaryRoute>, m: EndpointsCache, n: EndpointsCache)
    requires EndpointsAlike(k, m, n)
    ensures ExpectedOf(routes, m) == ExpectedOf(routes, n)
  {
    if routes == [] {
    } else {
      var service := routes[0].backend.serviceName;
      assert service in m ==> SameEndpointsTo(k, m[service], n[service]);
      ExpectedAlike(k, routes[1..], m, n);
    }
  }

  lemma StartAlike(printer: WeightPrinter, s: Store, u: Store, k: string)
    requires KanaryAlike(k, s.kanaries, u.kanaries) && EndpointsAlike(k, s.endpoints, u.endpoints)
    ensures TasksAlike(Start(printer, s, k), Start(printer, u, k))
  {
    hide ExpectedOf, Render, StatusCovers, EndpointsAlike;
    if k in s.kanaries {
      ExpectedAlike(k, s.kanaries[k].spec.routes, s.endpoints, u.endpoints);
    }
  }

  /** Syncing k in two stores that look alike to it gives stores that do. */
  lemma SyncAlike(printer: WeightPrinter, s: Store, u: Store, k: string, ds: set<string>)
    requires WellKeyed(s) && WellKeyed(u) && Alike(k, ds, s, u)
    requires k in s.kanaries ==> Within(s.kanaries[k], ds) && Within(u.kanaries[k], ds)
    ensures Alike(k, ds, Sync(printer, s, k), Sync(printer, u, k))
  {
    StartIsCurrent(printer, s, k, ds);
    StartIsCurrent(printer, u, k, ds);
    StartAlike(printer, s, u, k);
    RunAlike(k, ds, s, Start(printer, s, k), u, Start(printer, u, k));
    hide Run, Begin, Alike;
  }

  lemma OwnDestinations(s: Store, k: string)
    requires WellKeyed(s) && OwnProxies(s) && k in s.kanaries
    ensures Within(s.kanaries[k], Destinations(s, k))
  {
  }

  /** A sync writes only objects named from its own Kanary, and its name in
      kanaryRef lists. */
  lemma SyncKeepsOthers(printer: WeightPrinter, s: Store, k: string, ds: set<string>)
    requires WellKeyed(s) && (k in s.kanaries ==> Within(s.kanaries[k], ds))
    ensures OthersKept(k, ds, s, Sync(printer, s, k)) && WellKeyed(Sync(printer, s, k))
  {
    StartIsCurrent(printer, s, k, ds);
    RunKeepsOthers(k, ds, s, Start(printer, s, k));
    hide Run, Begin, OthersKept, WellKeyed;
  }

  lemma OthersLookAlike(k: string, ds: set<string>, s: Store, u: Store, j: string, es: set<string>)
    requires OthersKept(k, ds, s, u) && j != k && ds !! es
    ensures Alike(j, es, s, u) && (j in s.kanaries ==> s.kanaries[j] == u.kanaries[j])
  {
    DerivedNamesInjective(j, k);
    EndpointsKeptAlike(k, s.endpoints, u.endpoints, j);
    forall v | v in es ensures ServiceAlike(v, s.services, u.services) {
      assert v !in ds;
    }
  }

  lemma AlikeSymmetric(k: string, ds: set<string>, s: Store, u: Store)
    requires Alike(k, ds, s, u)
    ensures Alike(k, ds, u, s)
  {
    forall e | e in u.endpoints ensures SameEndpointsTo(k, u.endpoints[e], s.endpoints[e]) {
      assert SameEndpointsTo(k, s.endpoints[e], u.endpoints[e]);
    }
    forall v | v in ds ensures ServiceAlike(v, u.services, s.services) {
      assert ServiceAlike(v, s.services, u.services);
    }
  }

  lemma AlikeTransitive(k: string, ds: set<string>, s: Store, u: Store, w: Store)
    requires Alike(k, ds, s, u) && Alike(k, ds, u, w)
    ensures Alike(k, ds, s, w)
  {
    forall e | e in s.endpoints ensures SameEndpointsTo(k, s.endpoints[e], w.endpoints[e]) {
      assert SameEndpointsTo(k, s.endpoints[e], u.endpoints[e]) && SameEndpointsTo(k, u.endpoints[e], w.endpoints[e]);
    }
    forall v | v in ds ensures ServiceAlike(v, s.services, w.services) {
      assert ServiceAlike(v, s.services, u.services) && ServiceAlike(v, u.services, w.services);
    }
  }

  /** Kanary a's part of the store is the same whichever sync comes first: the sync
      of b neither touches what a's reads, nor afterwards what a's wrote. */
  lemma OwnPartCommutes(printer: WeightPrinter, s: Store, a: string, b: string)
    requires a != b && WellKeyed(s) && OwnProxies(s) && Destinations(s, a) !! Destinations(s, b)
    requires a in s.kanaries && b in s.kanaries
    ensures Alike(a, Destinations(s, a), Sync(printer, Sync(printer, s, a), b), Sync(printer, Sync(printer, s, b), a))
  {
    var da, db := Destinations(s, a), Destinations(s, b);
    var sa, sb := Sync(printer, s, a), Sync(printer, s, b);
    var ab, ba := Sync(printer, sa, b), Sync(printer, sb, a);
    OwnDestinations(s, a);
    OwnDestinations(s, b);
    hide Sync, Alike, OthersKept, WellKeyed, OwnProxies, Destinations, Within;
    SyncKeepsOthers(printer, s, a, da);
    SyncKeepsOthers(printer, s, b, db);
    OthersLookAlike(b, db, s, sb, a, da);
    OthersLookAlike(a, da, s, sa, b, db);
    KanaryStays(a, da, s, sa, b);
    KanaryStays(b, db, s, sb, a);
    SyncAlike(printer, s, sb, a, da);
    SyncKeepsOthers(printer, sa, b, db);
    OthersLookAlike(b, db, sa, ab, a, da);
    AlikeSymmetric(a, da, sa, ab);
    AlikeTransitive(a, da, ab, sa, ba);
  }

  lemma KanaryStays(k: string, ds: set<string>, s: Store, u: Store, j: string)
    requires OthersKept(k, ds, s, u) && j != k && j in s.kanaries
    ensures j in u.kanaries && u.kanaries[j] == s.kanaries[j]
  {
  }

  /** The same annotation up to the order of its names. */
  ghost predicate SameRefs(a: Annotation, b: Annotation) {
    && (a.Absent? <==> b.Absent?)
    && (a.Malformed? <==> b.Malformed?)
    && multiset(a.Names()) == multiset(b.Names())
  }

  ghost predicate EndpointsEquivalent(m: EndpointsCache, n: EndpointsCache) {
    && m.Keys == n.Keys
    && forall e :: e in m ==> m[e].subsets == n[e].subsets && SameRefs(m[e].kanaryRef, n[e].kanaryRef)
  }

  /** Equal up to versions and to the order of names in kanaryRef lists. */
  ghost predicate Equivalent(s: Store, u: Store) {
    && (forall k: string :: KanaryAlike(k, s.kanaries, u.kanaries))
    && EndpointsEquivalent(s.endpoints, u.endpoints)
    && (forall c: string :: ConfigMapAlike(c, s.configMaps, s.configWrites, u.configMaps, u.configWrites))
    && (forall d: string :: DeploymentAlike(d, s.deployments, s.rolls, u.deployments, u.rolls))
    && (forall v: string :: ServiceAlike(v, s.services, u.services))
  }

  /** What neither of two consecutive syncs owns is as it was. */
  lemma UntouchedByBoth(a: string, da: set<string>, b: string, db: set<string>, s: Store, u: Store, w: Store)
    requires OthersKept(a, da, s, u) && OthersKept(b, db, u, w)
    ensures forall k: string :: k != a && k != b ==> KanaryAlike(k, s.kanaries, w.kanaries)
    ensures forall c: string :: c != ConfigMapName(a) && c != ConfigMapName(b) ==>
                                  ConfigMapAlike(c, s.configMaps, s.configWrites, w.configMaps, w.configWrites)
    ensures forall d: string :: d != ProxyName(a) && d != ProxyName(b) ==>
                                  DeploymentAlike(d, s.deployments, s.rolls, w.deployments, w.rolls)
    ensures forall v: string :: v !in da && v !in db ==> ServiceAlike(v, s.services, w.services)
  {
    forall c: string | c != ConfigMapName(a) && c != ConfigMapName(b)
      ensures ConfigMapAlike(c, s.configMaps, s.configWrites, w.configMaps, w.configWrites)
    {
      assert ConfigMapAlike(c, s.configMaps, s.configWrites, u.configMaps, u.configWrites);
      assert ConfigMapAlike(c, u.configMaps, u.configWrites, w.configMaps, w.configWrites);
    }
    forall d: string | d != ProxyName(a) && d != ProxyName(b)
      ensures DeploymentAlike(d, s.deployments, s.rolls, w.deployments, w.rolls)
    {
      assert DeploymentAlike(d, s.deployments, s.rolls, u.deployments, u.rolls);
      assert DeploymentAlike(d, u.deployments, u.rolls, w.deployments, w.rolls);
    }
    forall v: string | v !in da && v !in db ensures ServiceAlike(v, s.services, w.services) {
      assert ServiceAlike(v, s.services, u.services) && ServiceAlike(v, u.services, w.services);
    }
  }

  lemma SyncPairKeepsOthers(printer: WeightPrinter, s: Store, a: string, b: string)
    requires a != b && WellKeyed(s) && OwnProxies(s) && a in s.kanaries && b in s.kanaries
    ensures var sa := Sync(printer, s, a);
            OthersKept(a, Destinations(s, a), s, sa) && OthersKept(b, Destinations(s, b), sa, Sync(printer, sa, b))
  {
    OwnDestinations(s, a);
    OwnDestinations(s, b);
    hide Sync, OthersKept, WellKeyed, OwnProxies, Destinations, Within;
    SyncKeepsOthers(printer, s, a, Destinations(s, a));
    KanaryStays(a, Destinations(s, a), s, Sync(printer, s, a), b);
    SyncKeepsOthers(printer, Sync(printer, s, a), b, Destinations(s, b));
  }

  lemma AppendedCounts(k: string, a: Annotation, b: Annotation, j: string)
    requires Appended(k, a, b)
    ensures j != k ==> multiset(b.Names())[j] == multiset(a.Names())[j]
    ensures multiset(b.Names())[j] >= multiset(a.Names())[j]
    ensures b.Absent? ==> a.Absent?
    ensures b.Malformed? <==> a.Malformed?
    ensures a.Absent? && !b.Absent? ==> multiset(b.Names())[k] > 0
  {
  }

  lemma AbsentTogether(a: string, b: string, s: Annotation, u: Annotation, v: Annotation, w: Annotation, z: Annotation)
    requires Appended(a, s, u) && Appended(b, u, w) && Appended(b, s, v) && Appended(a, v, z)
    requires multiset(w.Names())[a] == multiset(z.Names())[a] && multiset(w.Names())[b] == multiset(z.Names())[b]
    requires w.Absent?
    ensures z.Absent?
  {
    assert multiset(w.Names())[a] == 0 && multiset(w.Names())[b] == 0;
    hide Appended;
    AppendedCounts(b, u, w, b);
    AppendedCounts(a, s, u, a);
    AppendedCounts(b, s, v, b);
    AppendedCounts(a, v, z, a);
    AppendedCounts(a, v, z, b);
  }

  /** Two additions in either order: the same names, equally often. */
  lemma RefsOfPair(a: string, b: string, s: Annotation, u: Annotation, v: Annotation, w: Annotation, z: Annotation)
    requires Appended(a, s, u) && Appended(b, u, w) && Appended(b, s, v) && Appended(a, v, z)
    requires multiset(w.Names())[a] == multiset(z.Names())[a] && multiset(w.Names())[b] == multiset(z.Names())[b]
    ensures SameRefs(w, z)
  {
    if w.Absent? {
      AbsentTogether(a, b, s, u, v, w, z);
    } else if z.Absent? {
      AbsentTogether(b, a, s, v, u, z, w);
    }
    hide Appended;
    forall k ensures multiset(w.Names())[k] == multiset(z.Names())[k] {
      CountsOfPair(a, b, s, u, v, w, z, k);
    }
    SameCounts(multiset(w.Names()), multiset(z.Names()));
    AppendedCounts(a, s, u, a);
    AppendedCounts(b, u, w, a);
    AppendedCounts(b, s, v, a);
    AppendedCounts(a, v, z, a);
  }

  lemma CountsOfPair(a: string, b: string, s: Annotation, u: Annotation, v: Annotation, w: Annotation, z: Annotation,
                     k: string)
    requires Appended(a, s, u) && Appended(b, u, w) && Appended(b, s, v) && Appended(a, v, z)
    requires multiset(w.Names())[a] == multiset(z.Names())[a] && multiset(w.Names())[b] == multiset(z.Names())[b]
    ensures multiset(w.Names())[k] == multiset(z.Names())[k]
  {
    hide Appended;
    if k != a && k != b {
      AppendedCounts(a, s, u, k);
      AppendedCounts(b, u, w, k);
      AppendedCounts(b, s, v, k);
      AppendedCounts(a, v, z, k);
    }
  }

  lemma SameCounts(m: multiset<string>, n: multiset<string>)
    requires forall k :: m[k] == n[k]
    ensures m == n
  {
  }

  lemma RefsMakeWhole(a: string, b: string, s: EndpointsCache, u: EndpointsCache, v: EndpointsCache,
                      w: EndpointsCache, z: EndpointsCache)
    requires EndpointsKept(a, s, u) && EndpointsKept(b, u, w) && EndpointsKept(b, s, v) && EndpointsKept(a, v, z)
    requires EndpointsAlike(a, w, z) && EndpointsAlike(b, w, z)
    ensures EndpointsEquivalent(w, z)
  {
    hide Appended, SameRefs;
    forall e | e in w ensures w[e].subsets == z[e].subsets && SameRefs(w[e].kanaryRef, z[e].kanaryRef) {
      assert SameEndpointsTo(a, w[e], z[e]) && SameEndpointsTo(b, w[e], z[e]);
      RefsOfPair(a, b, s[e].kanaryRef, u[e].kanaryRef, v[e].kanaryRef, w[e].kanaryRef, z[e].kanaryRef);
    }
  }

  /** The parts of a and b and everything else make up the whole store. */
  lemma PartsMakeWhole(s: Store, a: string, da: set<string>, b: string, db: set<string>, u: Store, v: Store,
                       w: Store, z: Store)
    requires OthersKept(a, da, s, u) && OthersKept(b, db, u, w)
    requires OthersKept(b, db, s, v) && OthersKept(a, da, v, z)
    requires Alike(a, da, w, z) && Alike(b, db, w, z)
    ensures Equivalent(w, z)
  {
    UntouchedByBoth(a, da, b, db, s, u, w);
    UntouchedByBoth(b, db, a, da, s, v, z);
    RefsMakeWhole(a, b, s.endpoints, u.endpoints, v.endpoints, w.endpoints, z.endpoints);
    forall v': string ensures ServiceAlike(v', w.services, z.services) {
      if v' !in da && v' !in db {
        assert ServiceAlike(v', s.services, w.services) && ServiceAlike(v', s.services, z.services);
      }
    }
    forall k: string ensures KanaryAlike(k, w.kanaries, z.kanaries) {
      if k != a && k != b {
        assert KanaryAlike(k, s.kanaries, w.kanaries) && KanaryAlike(k, s.kanaries, z.kanaries);
      }
    }
    forall c: string ensures ConfigMapAlike(c, w.configMaps, w.configWrites, z.configMaps, z.configWrites) {
      if c != ConfigMapName(a) && c != ConfigMapName(b) {
        assert ConfigMapAlike(c, s.configMaps, s.configWrites, w.configMaps, w.configWrites);
        assert ConfigMapAlike(c, s.configMaps, s.configWrites, z.configMaps, z.configWrites);
      }
    }
    forall d: string ensures DeploymentAlike(d, w.deployments, w.rolls, z.deployments, z.rolls) {
      if d != ProxyName(a) && d != ProxyName(b) {
        assert DeploymentAlike(d, s.deployments, s.rolls, w.deployments, w.rolls);
        assert DeploymentAlike(d, s.deployments, s.rolls, z.deployments, z.rolls);
      }
    }
  }

  /** Fault-free syncs of two Kanaries with disjoint current and recorded
      destinations commute, up to versions and the order of names in kanaryRef. */
  lemma SyncsCommute(printer: WeightPrinter, s: Store, a: string, b: string)
    requires WellKeyed(s) && OwnProxies(s)
    requires a != b ==> Destinations(s, a) !! Destinations(s, b)
    ensures Equivalent(Sync(printer, Sync(printer, s, a), b), Sync(printer, Sync(printer, s, b), a))
  {
    if a == b || a !in s.kanaries || b !in s.kanaries {
      AbsentSync(printer, s, a, b);
    } else {
      var da, db := Destinations(s, a), Destinations(s, b);
      var sa, sb := Sync(printer, s, a), Sync(printer, s, b);
      OwnPartCommutes(printer, s, a, b);
      OwnPartCommutes(printer, s, b, a);
      AlikeSymmetric(b, db, Sync(printer, sb, a), Sync(printer, sa, b));
      SyncPairKeepsOthers(printer, s, a, b);
      SyncPairKeepsOthers(printer, s, b, a);
      hide Sync, Alike, OthersKept, Equivalent;
      PartsMakeWhole(s, a, da, b, db, sa, sb, Sync(printer, sa, b), Sync(printer, sb, a));
    }
  }

  /** A sync of an absent Kanary changes nothing, and no sync creates a Kanary. */
  lemma AbsentSync(printer: WeightPrinter, s: Store, a: string, b: string)
    requires WellKeyed(s) && OwnProxies(s)
    requires a == b || a !in s.kanaries || b !in s.kanaries
    ensures Equivalent(Sync(printer, Sync(printer, s, a), b), Sync(printer, Sync(printer, s, b), a))
  {
    if a != b {
      if a in s.kanaries {
        AbsentAfter(printer, s, a, b);
      }
      if b in s.kanaries {
        AbsentAfter(printer, s, b, a);
      }
    }
  }

  lemma AbsentAfter(printer: WeightPrinter, s: Store, a: string, b: string)
    requires WellKeyed(s) && OwnProxies(s) && a in s.kanaries && b !in s.kanaries
    ensures Sync(printer, Sync(printer, s, a), b) == Sync(printer, s, a)
  {
    OwnDestinations(s, a);
    SyncKeepsOthers(printer, s, a, Destinations(s, a));
    var u := Sync(printer, s, a);
    assert b !in u.kanaries;
  }
}
