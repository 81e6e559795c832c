/** One fault-free sync, stage by stage: why no call of it fails, and where it ends. */
module CalmSync {
  import opened KanaryTypes
  import opened Decimal
  import opened EndpointDiff
  import opened ExpectedStatus
  import opened HAProxy
  import opened Float32
  import opened ConfigText
  import opened ApiStore
  import opened SyncProtocol
  import opened NonInterference

  function ConfigFor(printer: WeightPrinter, es: seq<KanaryEndpointList>): string {
    Render(printer, Backends(FloatShare, es))
  }

  // ---------- the parts of a Kanary's state ----------

  /** The ConfigMap holds the rendering of es, and `pending` of its writes have not
      been followed by a rolling update. */
  ghost predicate ConfigHolds(printer: WeightPrinter, cms: map<string, ConfigMap>, writes: Counts, rolls: Counts,
                              k: string, es: seq<KanaryEndpointList>, pending: nat) {
    && ConfigMapName(k) in cms
    && cms[ConfigMapName(k)].config == ConfigFor(printer, es)
    && Count(writes, ConfigMapName(k)) == 1 + Count(rolls, ProxyName(k)) + pending
  }

  ghost predicate ConfigAbsent(cms: map<string, ConfigMap>, writes: Counts, k: string) {
    ConfigMapName(k) !in cms && Count(writes, ConfigMapName(k)) == 0
  }

  ghost predicate ProxyPresent(ds: map<string, Deployment>, rolls: Counts, k: string) {
    ProxyName(k) in ds && ds[ProxyName(k)].revision == Itoa(Wrap64(1 + Count(rolls, ProxyName(k))))
  }

  ghost predicate ProxyAbsent(ds: map<string, Deployment>, rolls: Counts, k: string) {
    ProxyName(k) !in ds && Count(rolls, ProxyName(k)) == 0
  }

  /** None of the names reserved for k is a Service. */
  ghost predicate NoService(reserved: Reservations, services: map<string, Service>, k: string) {
    forall n :: n in services && n in reserved ==> reserved[n] != k
  }

  /** Of the names reserved for k, exactly `name` is a Service. */
  ghost predicate ServicePresent(reserved: Reservations, services: map<string, Service>, k: string, name: string) {
    && name != "" && name in reserved && reserved[name] == k && name in services
    && forall n :: n in services && n in reserved && reserved[n] == k ==> n == name
  }

  /** The first n services of es list k in their kanaryRef. */
  ghost predicate Referenced(endpoints: EndpointsCache, k: string, es: seq<KanaryEndpointList>, n: nat) {
    forall i :: 0 <= i < n && i < |es| ==>
      es[i].serviceName in endpoints && k in endpoints[es[i].serviceName].kanaryRef.Names()
  }

  ghost predicate NoneMalformed(endpoints: EndpointsCache) {
    forall n :: n in endpoints ==> !endpoints[n].kanaryRef.Malformed?
  }

  // ---------- between syncs ----------

  /** All four parts of the status are blank, and no object exists. */
  ghost predicate Blank(reserved: Reservations, s: Store, k: string) {
    && k in s.kanaries && s.kanaries[k].status == BLANK_STATUS
    && ConfigAbsent(s.configMaps, s.configWrites, k)
    && ProxyAbsent(s.deployments, s.rolls, k)
    && NoService(reserved, s.services, k)
  }

  /** All four parts are set and agree with the objects they name. */
  ghost predicate Complete(reserved: Reservations, printer: WeightPrinter, s: Store, k: string, watched: bool) {
    && k in s.kanaries
    && var st := s.kanaries[k].status;
       && st.endpoints != [] && st.destination.configName == ConfigMapName(k) && st.destination.proxyName == ProxyName(k)
       && ConfigHolds(printer, s.configMaps, s.configWrites, s.rolls, k, st.endpoints, 0)
       && ProxyPresent(s.deployments, s.rolls, k)
       && ServicePresent(reserved, s.services, k, st.destination.serviceName)
       && (watched ==> Referenced(s.endpoints, k, st.endpoints, |st.endpoints|))
  }

  ghost predicate Settled(reserved: Reservations, printer: WeightPrinter, s: Store, k: string, watched: bool) {
    && k in s.kanaries && SpecAllowed(reserved, k, s.kanaries[k].spec)
    && (Blank(reserved, s, k) || Complete(reserved, printer, s, k, watched))
  }

  // ---------- within a sync ----------

  /** The sync holds the current Kanary and the expectation of the current view. */
  ghost predicate Holds(reserved: Reservations, s: Store, k: string, exp: seq<KanaryEndpointList>, t: Task) {
    && WellKeyed(s) && NoneMalformed(s.endpoints)
    && !t.Done? && k in s.kanaries && t.ky == s.kanaries[k] && SpecAllowed(reserved, k, t.ky.spec)
    && exp != [] && ExpectedOf(t.ky.spec.routes, s.endpoints) == Some(exp)
  }

  /** Proxy and service are as the status records them. */
  ghost predicate RestAgrees(reserved: Reservations, ds: map<string, Deployment>, rolls: Counts,
                             services: map<string, Service>, k: string, ky: Kanary) {
    var d := ky.status.destination;
    || (d.proxyName == "" && d.serviceName == "" && ProxyAbsent(ds, rolls, k) && NoService(reserved, services, k))
    || (d.proxyName == ProxyName(k) && ProxyPresent(ds, rolls, k) && ServicePresent(reserved, services, k, d.serviceName))
  }

  ghost predicate ConfigDone(printer: WeightPrinter, s: Store, k: string, exp: seq<KanaryEndpointList>,
                             ky: Kanary, watched: bool) {
    && ky.status.destination.configName == ConfigMapName(k)
    && ky.status.endpoints != [] && StatusCovers(exp, ky.status.endpoints)
    && ConfigHolds(printer, s.configMaps, s.configWrites, s.rolls, k, ky.status.endpoints, 0)
    && (watched ==> Referenced(s.endpoints, k, ky.status.endpoints, |ky.status.endpoints|))
  }

  /** What is true when the task is about to make its call. */
  ghost predicate Stage(reserved: Reservations, printer: WeightPrinter, s: Store, k: string,
                        exp: seq<KanaryEndpointList>, t: Task, watched: bool)
    requires !t.Done?
  {
    var d := t.ky.status.destination;
    match t
    case WriteConfig(ky, e, config) =>
      && e == exp && config == ConfigFor(printer, exp)
      && (Blank(reserved, s, k) || Complete(reserved, printer, s, k, false))
    case ReadProxy(ky, e) =>
      && e == exp
      && ConfigHolds(printer, s.configMaps, s.configWrites, s.rolls, k, exp, 1)
      && d.proxyName == ProxyName(k)
      && RestAgrees(reserved, s.deployments, s.rolls, s.services, k, ky)
    case RollProxy(ky, e, deployment) =>
      && e == exp
      && ConfigHolds(printer, s.configMaps, s.configWrites, s.rolls, k, exp, 1)
      && d.proxyName == ProxyName(k)
      && RestAgrees(reserved, s.deployments, s.rolls, s.services, k, ky)
      && s.deployments[ProxyName(k)] == deployment
    case RecordConfig(ky, e) =>
      && e == exp
      && ConfigHolds(printer, s.configMaps, s.configWrites, s.rolls, k, exp, 0)
      && RestAgrees(reserved, s.deployments, s.rolls, s.services, k, ky)
    case RecordEndpoints(ky, e) =>
      && e == exp
      && ConfigHolds(printer, s.configMaps, s.configWrites, s.rolls, k, exp, 0)
      && RestAgrees(reserved, s.deployments, s.rolls, s.services, k, ky)
      && d.configName == ConfigMapName(k)
    case AddRefs(ky, next) =>
      && ky.status.endpoints == exp
      && ConfigHolds(printer, s.configMaps, s.configWrites, s.rolls, k, exp, 0)
      && RestAgrees(reserved, s.deployments, s.rolls, s.services, k, ky)
      && d.configName == ConfigMapName(k) && next < |exp| && Referenced(s.endpoints, k, exp, next)
    case CreateProxy(ky) =>
      && ConfigDone(printer, s, k, exp, ky, watched)
      && RestAgrees(reserved, s.deployments, s.rolls, s.services, k, ky)
      && d.proxyName == ""
    case RecordProxy(ky) =>
      && ConfigDone(printer, s, k, exp, ky, watched)
      && d.proxyName == ""
      && d.serviceName == ""
      && ProxyPresent(s.deployments, s.rolls, k)
      && NoService(reserved, s.services, k)
    case RemoveService(ky) =>
      && ConfigDone(printer, s, k, exp, ky, watched)
      && d.proxyName == ProxyName(k)
      && ProxyPresent(s.deployments, s.rolls, k)
      && ServicePresent(reserved, s.services, k, d.serviceName)
    case PublishService(ky) =>
      && ConfigDone(printer, s, k, exp, ky, watched)
      && d.proxyName == ProxyName(k)
      && ProxyPresent(s.deployments, s.rolls, k)
      && NoService(reserved, s.services, k)
    case RecordService(ky) =>
      && ConfigDone(printer, s, k, exp, ky, watched)
      && d.proxyName == ProxyName(k)
      && ProxyPresent(s.deployments, s.rolls, k)
      && ServicePresent(reserved, s.services, k, ky.spec.destination)
  }

  /** The sync has ended well. */
  ghost predicate Ended(reserved: Reservations, printer: WeightPrinter, s: Store, k: string,
                        exp: seq<KanaryEndpointList>, watched: bool) {
    && Complete(reserved, printer, s, k, watched)
    && s.kanaries[k].status.destination.serviceName == s.kanaries[k].spec.destination
    && StatusCovers(exp, s.kanaries[k].status.endpoints)
  }

  ghost predicate OnTrack(reserved: Reservations, printer: WeightPrinter, s: Store, k: string,
                          exp: seq<KanaryEndpointList>, t: Task, watched: bool) {
    && WellKeyed(s) && NoneMalformed(s.endpoints)
    && if t.Done? then !t.err && Ended(reserved, printer, s, k, exp, watched)
       else Holds(reserved, s, k, exp, t) && Stage(reserved, printer, s, k, exp, t, watched)
  }

  // ---------- decisions between calls ----------

  lemma AfterProxyOnTrack(reserved: Reservations, printer: WeightPrinter, s: Store, k: string,
                          exp: seq<KanaryEndpointList>, ky: Kanary, watched: bool)
    requires WellKeyed(s) && NoneMalformed(s.endpoints) && k in s.kanaries
    requires s.kanaries[k] == ky && SpecAllowed(reserved, k, ky.spec)
    requires exp != [] && ExpectedOf(ky.spec.routes, s.endpoints) == Some(exp)
    requires ConfigDone(printer, s, k, exp, ky, watched)
    requires ky.status.destination.proxyName == ProxyName(k) && ProxyPresent(s.deployments, s.rolls, k)
    requires if ky.status.destination.serviceName == "" then NoService(reserved, s.services, k)
             else ServicePresent(reserved, s.services, k, ky.status.destination.serviceName)
    ensures OnTrack(reserved, printer, s, k, exp, AfterProxy(ky), watched)
  {
    hide WellKeyed, NoneMalformed, ExpectedOf, StatusCovers, Referenced, ConfigHolds, ProxyPresent, NoService;
  }

  lemma AfterConfigOnTrack(reserved: Reservations, printer: WeightPrinter, s: Store, k: string,
                           exp: seq<KanaryEndpointList>, ky: Kanary, watched: bool)
    requires WellKeyed(s) && NoneMalformed(s.endpoints) && k in s.kanaries
    requires s.kanaries[k] == ky && SpecAllowed(reserved, k, ky.spec)
    requires exp != [] && ExpectedOf(ky.spec.routes, s.endpoints) == Some(exp)
    requires ConfigDone(printer, s, k, exp, ky, watched) && RestAgrees(reserved, s.deployments, s.rolls, s.services, k, ky)
    ensures OnTrack(reserved, printer, s, k, exp, AfterConfig(ky), watched)
  {
    hide WellKeyed, NoneMalformed, ExpectedOf, ConfigDone, SpecAllowed;
    if !ky.HAProxyCreationNeeded() {
      AfterProxyOnTrack(reserved, printer, s, k, exp, ky, watched);
    }
  }

  lemma RefsFromOnTrack(reserved: Reservations, printer: WeightPrinter, s: Store, k: string,
                        exp: seq<KanaryEndpointList>, ky: Kanary, next: nat, watched: bool)
    requires WellKeyed(s) && NoneMalformed(s.endpoints) && k in s.kanaries
    requires s.kanaries[k] == ky && SpecAllowed(reserved, k, ky.spec)
    requires exp != [] && ExpectedOf(ky.spec.routes, s.endpoints) == Some(exp)
    requires ky.status.endpoints == exp && ConfigHolds(printer, s.configMaps, s.configWrites, s.rolls, k, exp, 0)
    requires RestAgrees(reserved, s.deployments, s.rolls, s.services, k, ky)
    requires ky.status.destination.configName == ConfigMapName(k) && next <= |exp| && Referenced(s.endpoints, k, exp, next)
    ensures OnTrack(reserved, printer, s, k, exp, RefsFrom(ky, next), watched)
  {
    if next >= |exp| {
      CoversReflexive(exp);
      hide StatusCovers, ConfigHolds, Referenced, WellKeyed, NoneMalformed, ExpectedOf, RestAgrees, SpecAllowed;
      AfterConfigOnTrack(reserved, printer, s, k, exp, ky, watched);
    }
  }

  // ---------- every call succeeds ----------

  lemma ConfigPut(printer: WeightPrinter, cms: map<string, ConfigMap>, writes: Counts, rolls: Counts, k: string,
                  cm: ConfigMap, exp: seq<KanaryEndpointList>)
    requires cm.name == ConfigMapName(k) && cm.config == ConfigFor(printer, exp)
    ensures ConfigAbsent(cms, writes, k) && Count(rolls, ProxyName(k)) == 0 ==>
              ConfigHolds(printer, cms[cm.name := cm], Counted(writes, cm.name), rolls, k, exp, 0)
    ensures forall es :: ConfigHolds(printer, cms, writes, rolls, k, es, 0) ==>
              ConfigHolds(printer, cms[cm.name := cm], Counted(writes, cm.name), rolls, k, exp, 1)
  {
  }

  lemma WriteConfigStep(reserved: Reservations, printer: WeightPrinter, s: Store, k: string,
                        exp: seq<KanaryEndpointList>, t: Task, watched: bool)
    requires OnTrack(reserved, printer, s, k, exp, t, watched) && t.WriteConfig?
    ensures OnTrack(reserved, printer, Step(s, t, CALM).0, k, exp, Step(s, t, CALM).1, watched)
  {
    assert t.ky.name == k;
    hide WellKeyed, NoneMalformed, ExpectedOf, StatusCovers, Referenced, ConfigFor, ConfigHolds, ProxyPresent, NoService,
         ServicePresent, SpecAllowed, Counted, Count, ProxyName, ConfigMapName;
    StepKeepsKeyed(s, t, CALM);
    ConfigPut(printer, s.configMaps, s.configWrites, s.rolls, k, NewConfigMap(t.ky, t.config), exp);
  }

  lemma ReadProxyStep(reserved: Reservations, printer: WeightPrinter, s: Store, k: string,
                      exp: seq<KanaryEndpointList>, t: Task, watched: bool)
    requires OnTrack(reserved, printer, s, k, exp, t, watched) && t.ReadProxy?
    ensures OnTrack(reserved, printer, Step(s, t, CALM).0, k, exp, Step(s, t, CALM).1, watched)
  {
    hide WellKeyed, NoneMalformed, ExpectedOf, StatusCovers, ConfigHolds, NoService, ServicePresent, SpecAllowed, Wrap64, Itoa;
  }

  lemma ProxyNamed(s: Store, k: string)
    requires WellKeyed(s) && ProxyName(k) in s.deployments
    ensures s.deployments[ProxyName(k)].name == ProxyName(k)
  {
  }

  lemma ProxyRolled(ds: map<string, Deployment>, rolls: Counts, k: string, v: nat)
    requires ProxyPresent(ds, rolls, k) && ds[ProxyName(k)].name == ProxyName(k)
    ensures ProxyPresent(ds[ProxyName(k) := Rolled(ds[ProxyName(k)]).(version := v)], Counted(rolls, ProxyName(k)), k)
    ensures forall printer, cms, writes, es :: ConfigHolds(printer, cms, writes, rolls, k, es, 1) ==>
              ConfigHolds(printer, cms, writes, Counted(rolls, ProxyName(k)), k, es, 0)
  {
    hide Rolled, Itoa, Wrap64, ConfigFor, ProxyName, ConfigMapName;
    RolledRevision(ds[ProxyName(k)], 1 + Count(rolls, ProxyName(k)));
  }

  lemma RollProxyStep(reserved: Reservations, printer: WeightPrinter, s: Store, k: string,
                      exp: seq<KanaryEndpointList>, t: Task, watched: bool)
    requires OnTrack(reserved, printer, s, k, exp, t, watched) && t.RollProxy?
    ensures OnTrack(reserved, printer, Step(s, t, CALM).0, k, exp, Step(s, t, CALM).1, watched)
  {
    hide WellKeyed, NoneMalformed, ExpectedOf, StatusCovers, Referenced, ConfigFor, Rolled, ConfigHolds, SpecAllowed, NoService,
         ServicePresent, Counted, Itoa, Wrap64;
    StepKeepsKeyed(s, t, CALM);
    ProxyNamed(s, k);
    RolledName(t.deployment);
    ProxyRolled(s.deployments, s.rolls, k, s.rev + 1);
  }

  lemma RecordConfigStep(reserved: Reservations, printer: WeightPrinter, s: Store, k: string,
                         exp: seq<KanaryEndpointList>, t: Task, watched: bool)
    requires OnTrack(reserved, printer, s, k, exp, t, watched) && t.RecordConfig?
    ensures OnTrack(reserved, printer, Step(s, t, CALM).0, k, exp, Step(s, t, CALM).1, watched)
  {
    assert t.ky.name == k;
    StepKeepsKeyed(s, t, CALM);
    hide WellKeyed, NoneMalformed, ExpectedOf, StatusCovers, Referenced, ConfigHolds, ProxyPresent, ProxyAbsent, NoService,
         ServicePresent, SpecAllowed;
  }

  lemma RecordEndpointsStep(reserved: Reservations, printer: WeightPrinter, s: Store, k: string,
                            exp: seq<KanaryEndpointList>, t: Task, watched: bool)
    requires OnTrack(reserved, printer, s, k, exp, t, watched) && t.RecordEndpoints?
    ensures OnTrack(reserved, printer, Step(s, t, CALM).0, k, exp, Step(s, t, CALM).1, watched)
  {
    assert t.ky.name == k;
    StepKeepsKeyed(s, t, CALM);
    hide WellKeyed, NoneMalformed, ExpectedOf, StatusCovers, ConfigHolds, ProxyPresent, ProxyAbsent, NoService,
         ServicePresent, SpecAllowed, RefsFrom;
    var s' := Step(s, t, CALM).0;
    RefsFromOnTrack(reserved, printer, s', k, exp, s'.kanaries[k], 0, watched);
    hide OnTrack;
  }

  lemma ProxyPut(ds: map<string, Deployment>, rolls: Counts, k: string, d: Deployment)
    requires d.name == ProxyName(k) && d.revision == "1" && ProxyAbsent(ds, rolls, k)
    ensures ProxyPresent(ds[d.name := d], rolls, k)
  {
    FirstRevision();
  }

  lemma CreateProxyStep(reserved: Reservations, printer: WeightPrinter, s: Store, k: string,
                        exp: seq<KanaryEndpointList>, t: Task, watched: bool)
    requires OnTrack(reserved, printer, s, k, exp, t, watched) && t.CreateProxy?
    ensures OnTrack(reserved, printer, Step(s, t, CALM).0, k, exp, Step(s, t, CALM).1, watched)
  {
    assert t.ky.name == k;
    StepKeepsKeyed(s, t, CALM);
    ProxyPut(s.deployments, s.rolls, k, NewDeployment(t.ky).(version := s.rev + 1));
    hide WellKeyed, NoneMalformed, ExpectedOf, StatusCovers, Referenced, ConfigHolds, ProxyPresent, NoService,
         ServicePresent, SpecAllowed;
  }

  lemma RecordProxyStep(reserved: Reservations, printer: WeightPrinter, s: Store, k: string,
                        exp: seq<KanaryEndpointList>, t: Task, watched: bool)
    requires OnTrack(reserved, printer, s, k, exp, t, watched) && t.RecordProxy?
    ensures OnTrack(reserved, printer, Step(s, t, CALM).0, k, exp, Step(s, t, CALM).1, watched)
  {
    assert t.ky.name == k;
    StepKeepsKeyed(s, t, CALM);
    hide WellKeyed, NoneMalformed, ExpectedOf, StatusCovers, Referenced, ConfigHolds, ProxyPresent, NoService,
         ServicePresent, SpecAllowed, AfterProxy;
    var s' := Step(s, t, CALM).0;
    AfterProxyOnTrack(reserved, printer, s', k, exp, s'.kanaries[k], watched);
    hide OnTrack;
  }

  lemma ServiceDropped(reserved: Reservations, services: map<string, Service>, k: string, name: string)
    requires ServicePresent(reserved, services, k, name)
    ensures NoService(reserved, services - {name}, k)
  {
  }

  lemma RemoveServiceStep(reserved: Reservations, printer: WeightPrinter, s: Store, k: string,
                          exp: seq<KanaryEndpointList>, t: Task, watched: bool)
    requires OnTrack(reserved, printer, s, k, exp, t, watched) && t.RemoveService?
    ensures OnTrack(reserved, printer, Step(s, t, CALM).0, k, exp, Step(s, t, CALM).1, watched)
  {
    var name := t.ky.status.destination.serviceName;
    StepKeepsKeyed(s, t, CALM);
    ServiceDropped(reserved, s.services, k, name);
    assert name in s.services;
    hide WellKeyed, NoneMalformed, ExpectedOf, StatusCovers, Referenced, ConfigHolds, ProxyPresent, NoService,
         ServicePresent, SpecAllowed;
  }

  lemma ServiceAdded(reserved: Reservations, services: map<string, Service>, k: string, svc: Service)
    requires NoService(reserved, services, k) && svc.name != "" && svc.name in reserved && reserved[svc.name] == k
    ensures svc.name !in services && ServicePresent(reserved, services[svc.name := svc], k, svc.name)
  {
  }

  /** ConfigDone looks at the ConfigMap, its counters and the lists only. */
  lemma ConfigDoneKept(printer: WeightPrinter, s: Store, u: Store, k: string, exp: seq<KanaryEndpointList>, ky: Kanary,
                       watched: bool)
    requires ConfigDone(printer, s, k, exp, ky, watched)
    requires u.configMaps == s.configMaps && u.configWrites == s.configWrites && u.rolls == s.rolls
    requires u.endpoints == s.endpoints
    ensures ConfigDone(printer, u, k, exp, ky, watched)
  {
  }

  lemma PublishServiceStep(reserved: Reservations, printer: WeightPrinter, s: Store, k: string,
                           exp: seq<KanaryEndpointList>, t: Task, watched: bool)
    requires OnTrack(reserved, printer, s, k, exp, t, watched) && t.PublishService?
    ensures OnTrack(reserved, printer, Step(s, t, CALM).0, k, exp, Step(s, t, CALM).1, watched)
  {
    assert t.ky.spec.destination != "" && t.ky.spec.destination in reserved && reserved[t.ky.spec.destination] == k;
    hide WellKeyed, NoneMalformed, ExpectedOf, StatusCovers, Referenced, ConfigHolds, ProxyPresent, NoService,
         ServicePresent, SpecAllowed, ProxyName, ConfigMapName, ConfigDone;
    StepKeepsKeyed(s, t, CALM);
    ServiceAdded(reserved, s.services, k, NewService(t.ky));
    ConfigDoneKept(printer, s, Step(s, t, CALM).0, k, exp, t.ky, watched);
  }

  lemma RecordServiceStep(reserved: Reservations, printer: WeightPrinter, s: Store, k: string,
                          exp: seq<KanaryEndpointList>, t: Task, watched: bool)
    requires OnTrack(reserved, printer, s, k, exp, t, watched) && t.RecordService?
    ensures OnTrack(reserved, printer, Step(s, t, CALM).0, k, exp, Step(s, t, CALM).1, watched)
  {
    assert t.ky.name == k;
    StepKeepsKeyed(s, t, CALM);
    hide WellKeyed, NoneMalformed, ExpectedOf, StatusCovers, Referenced, ConfigHolds, ProxyPresent, NoService,
         ServicePresent, SpecAllowed;
  }

  /** Adding a reference changes only annotations: references grow and the
      expectation stays. */
  lemma RefAdded(s: Store, k: string, service: string, routes: seq<KanaryRoute>)
    requires WellKeyed(s) && NoneMalformed(s.endpoints) && service in s.endpoints
    ensures var a := AddKanaryRef(s, s.endpoints, service, k);
            && a.reply.Some? && NoneMalformed(a.store.endpoints)
            && ExpectedOf(routes, a.store.endpoints) == ExpectedOf(routes, s.endpoints)
            && a.store == s.(rev := a.store.rev, endpoints := a.store.endpoints)
  {
    var u := AddKanaryRef(s, s.endpoints, service, k).store;
    SameExpectation(routes, s.endpoints, u.endpoints);
  }

  lemma MoreReferenced(s: Store, k: string, es: seq<KanaryEndpointList>, next: nat)
    requires WellKeyed(s) && NoneMalformed(s.endpoints) && next < |es| && es[next].serviceName in s.endpoints
    requires Referenced(s.endpoints, k, es, next)
    ensures Referenced(AddKanaryRef(s, s.endpoints, es[next].serviceName, k).store.endpoints, k, es, next + 1)
  {
    var service := es[next].serviceName;
    var u := AddKanaryRef(s, s.endpoints, service, k).store.endpoints;
    assert s.endpoints[service].name == service;
    AddRefAppends(s.endpoints[service].kanaryRef, k);
    assert u.Keys == s.endpoints.Keys;
    forall i | 0 <= i < next + 1 ensures es[i].serviceName in u && k in u[es[i].serviceName].kanaryRef.Names() {
      if i < next && es[i].serviceName != service {
        assert u[es[i].serviceName] == s.endpoints[es[i].serviceName];
      }
    }
  }

  lemma {:induction false} SameExpectation(routes: seq<KanaryRoute>, m: EndpointsCache, n: EndpointsCache)
    requires m.Keys == n.Keys && forall e :: e in m ==> m[e].subsets == n[e].subsets
    ensures ExpectedOf(routes, m) == ExpectedOf(routes, n)
  {
    if routes == [] {
    } else {
      SameExpectation(routes[1..], m, n);
    }
  }

  lemma ExpectedExists(routes: seq<KanaryRoute>, cache: EndpointsCache, i: nat)
    requires ExpectedOf(routes, cache).Some? && i < |ExpectedOf(routes, cache).value|
    ensures ExpectedOf(routes, cache).value[i].serviceName in cache
  {
    EntriesAligned(routes, cache);
    assert RouteEntry(routes[i], cache) == Some(ExpectedOf(routes, cache).value[i]);
  }

  lemma AddRefsShape(s: Store, t: Task, k: string)
    requires t.AddRefs? && t.next < |t.ky.status.endpoints| && t.ky.name == k
    requires AddKanaryRef(s, s.endpoints, t.ky.status.endpoints[t.next].serviceName, k).reply.Some?
    ensures Step(s, t, CALM) == (AddKanaryRef(s, s.endpoints, t.ky.status.endpoints[t.next].serviceName, k).store,
                                 RefsFrom(t.ky, t.next + 1))
  {
  }

  lemma AddRefsStep(reserved: Reservations, printer: WeightPrinter, s: Store, k: string,
                    exp: seq<KanaryEndpointList>, t: Task, watched: bool)
    requires OnTrack(reserved, printer, s, k, exp, t, watched) && t.AddRefs?
    ensures OnTrack(reserved, printer, Step(s, t, CALM).0, k, exp, Step(s, t, CALM).1, watched)
  {
    assert t.ky.name == k;
    hide WellKeyed, ExpectedOf, StatusCovers, RefsFrom, AddKanaryRef, NoneMalformed, Step, ConfigHolds, ProxyPresent,
         NoService, ServicePresent, SpecAllowed, RestAgrees, Referenced;
    var service := exp[t.next].serviceName;
    ExpectedExists(t.ky.spec.routes, s.endpoints, t.next);
    RefAdded(s, k, service, t.ky.spec.routes);
    MoreReferenced(s, k, exp, t.next);
    StepKeepsKeyed(s, t, CALM);
    AddRefsShape(s, t, k);
    var s' := Step(s, t, CALM).0;
    RefsFromOnTrack(reserved, printer, s', k, exp, s'.kanaries[k], t.next + 1, watched);
    hide OnTrack;
  }

  lemma StepOnTrack(reserved: Reservations, printer: WeightPrinter, s: Store, k: string,
                    exp: seq<KanaryEndpointList>, t: Task, watched: bool)
    requires OnTrack(reserved, printer, s, k, exp, t, watched) && !t.Done?
    ensures OnTrack(reserved, printer, Step(s, t, CALM).0, k, exp, Step(s, t, CALM).1, watched)
  {
    hide OnTrack, Step;
    match t
    case WriteConfig(_, _, _) => WriteConfigStep(reserved, printer, s, k, exp, t, watched);
    case ReadProxy(_, _) => ReadProxyStep(reserved, printer, s, k, exp, t, watched);
    case RollProxy(_, _, _) => RollProxyStep(reserved, printer, s, k, exp, t, watched);
    case RecordConfig(_, _) => RecordConfigStep(reserved, printer, s, k, exp, t, watched);
    case RecordEndpoints(_, _) => RecordEndpointsStep(reserved, printer, s, k, exp, t, watched);
    case AddRefs(_, _) => AddRefsStep(reserved, printer, s, k, exp, t, watched);
    case CreateProxy(_) => CreateProxyStep(reserved, printer, s, k, exp, t, watched);
    case RecordProxy(_) => RecordProxyStep(reserved, printer, s, k, exp, t, watched);
    case RemoveService(_) => RemoveServiceStep(reserved, printer, s, k, exp, t, watched);
    case PublishService(_) => PublishServiceStep(reserved, printer, s, k, exp, t, watched);
    case RecordService(_) => RecordServiceStep(reserved, printer, s, k, exp, t, watched);
  }

  lemma {:induction false} RunOnTrack(reserved: Reservations, printer: WeightPrinter, s: Store, k: string,
                                      exp: seq<KanaryEndpointList>, t: Task, watched: bool)
    requires OnTrack(reserved, printer, s, k, exp, t, watched)
    ensures var (u, err) := Run(s, t, []);
            !err && WellKeyed(u) && NoneMalformed(u.endpoints) && Ended(reserved, printer, u, k, exp, watched)
    decreases Rank(t)
  {
    if t.Done? {
    } else {
      StepOnTrack(reserved, printer, s, k, exp, t, watched);
      hide OnTrack, Step, Ended, WellKeyed, NoneMalformed;
      RunOnTrack(reserved, printer, Step(s, t, CALM).0, k, exp, Step(s, t, CALM).1, watched);
    }
  }

  // ---------- a sync from one boundary to the next ----------

  lemma StartOnTrack(reserved: Reservations, printer: WeightPrinter, s: Store, k: string, watched: bool)
    requires WellKeyed(s) && NoneMalformed(s.endpoints) && Settled(reserved, printer, s, k, watched)
    requires ExpectedOf(s.kanaries[k].spec.routes, s.endpoints).Some?
    ensures OnTrack(reserved, printer, s, k, ExpectedOf(s.kanaries[k].spec.routes, s.endpoints).value,
                    Start(printer, s, k), watched)
  {
    var ky := s.kanaries[k];
    var exp := ExpectedOf(ky.spec.routes, s.endpoints).value;
    EntriesAligned(ky.spec.routes, s.endpoints);
    hide ExpectedOf, NoneMalformed, ConfigHolds, ProxyPresent, NoService, ServicePresent, Referenced, Render;
    assert exp != [];
    if StatusCovers(exp, ky.status.endpoints) {
      hide WellKeyed, StatusCovers;
      AfterConfigOnTrack(reserved, printer, s, k, exp, ky, watched);
    }
  }

  lemma {:induction false} RunKeepsSpec(k: string, ds: set<string>, s: Store, t: Task)
    requires WellKeyed(s) && Current(k, ds, s, t) && k in s.kanaries
    ensures k in Run(s, t, []).0.kanaries && Run(s, t, []).0.kanaries[k].spec == s.kanaries[k].spec
    decreases Rank(t)
  {
    if t.Done? {
    } else {
      StepKeepsCurrent(k, ds, s, t);
      StepKeepsKeyed(s, t, CALM);
      StepKeepsSpec(k, ds, s, t);
      hide Step, Current, WellKeyed;
      RunKeepsSpec(k, ds, Step(s, t, CALM).0, Step(s, t, CALM).1);
    }
  }

  lemma StepKeepsSpec(k: string, ds: set<string>, s: Store, t: Task)
    requires !t.Done? && WellKeyed(s) && Current(k, ds, s, t)
    ensures k in Step(s, t, CALM).0.kanaries && Step(s, t, CALM).0.kanaries[k].spec == s.kanaries[k].spec
  {
    hide WellKeyed, Within, Rolled, AddKanaryRef;
    if t.AddRefs? && t.next < |t.ky.status.endpoints| {
      AddKanaryRefOnly(s, s.endpoints, t.ky.status.endpoints[t.next].serviceName, k);
    }
  }

  lemma SettledWithin(reserved: Reservations, printer: WeightPrinter, s: Store, k: string, watched: bool)
    requires WellKeyed(s) && Settled(reserved, printer, s, k, watched)
    ensures Within(s.kanaries[k], Destinations(s, k))
    ensures forall n :: n in Destinations(s, k) ==> n in reserved && reserved[n] == k
  {
  }

  /** A fault-free sync that can build its expectation ends with everything
      recorded, published and up to date; one that cannot changes nothing. */
  lemma SyncOutcome(reserved: Reservations, printer: WeightPrinter, s: Store, k: string, watched: bool)
    requires WellKeyed(s) && NoneMalformed(s.endpoints) && Settled(reserved, printer, s, k, watched)
    ensures var u := Sync(printer, s, k);
            && WellKeyed(u) && NoneMalformed(u.endpoints)
            && k in u.kanaries && u.kanaries[k].spec == s.kanaries[k].spec
            && match ExpectedOf(s.kanaries[k].spec.routes, s.endpoints)
               case None => u == s
               case Some(exp) => Ended(reserved, printer, u, k, exp, watched)
  {
    SettledWithin(reserved, printer, s, k, watched);
    StartIsCurrent(printer, s, k, Destinations(s, k));
    RunKeepsSpec(k, Destinations(s, k), s, Start(printer, s, k));
    if ExpectedOf(s.kanaries[k].spec.routes, s.endpoints).Some? {
      StartOnTrack(reserved, printer, s, k, watched);
      var exp := ExpectedOf(s.kanaries[k].spec.routes, s.endpoints).value;
      hide Run, OnTrack, Ended, WellKeyed, NoneMalformed, Settled, Current;
      RunOnTrack(reserved, printer, s, k, exp, Start(printer, s, k), watched);
    }
  }
}
