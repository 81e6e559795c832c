/** The inductive invariant of all faulty runs, group by group, and what each kind
    of store write does to it. */
module FaultyInvariant {
  import opened KanaryTypes
  import opened Lists
  import opened Decimal
  import opened ExpectedStatus
  import opened EndpointDiff
  import opened ConfigText
  import opened ApiStore
  import opened SyncProtocol
  import opened FaultyRuns

  // ---------- the parts of a status appear in stages ----------

  /** Endpoint status implies a config, a proxy implies a config, and a published
      service implies a proxy. */
  ghost predicate Staged(ky: Kanary) {
    var d := ky.status.destination;
    && (ky.status.endpoints != [] ==> d.configName != "")
    && (d.proxyName != "" ==> d.configName != "")
    && (d.serviceName != "" ==> d.proxyName != "")
  }

  /** Recorded names are the derived ones, and destinations are the Kanary's own. */
  ghost predicate Named(reserved: Reservations, ky: Kanary) {
    var d := ky.status.destination;
    && (d.configName == "" || d.configName == ConfigMapName(ky.name))
    && (d.proxyName == "" || d.proxyName == ProxyName(ky.name))
    && (d.serviceName != "" ==> d.serviceName in reserved && reserved[d.serviceName] == ky.name)
    && SpecAllowed(reserved, ky.name, ky.spec)
  }

  ghost predicate HasConfigMap(cms: map<string, ConfigMap>, k: string) {
    ConfigMapName(k) in cms
  }

  ghost predicate HasProxy(ds: map<string, Deployment>, k: string) {
    ProxyName(k) in ds
  }

  ghost predicate Backed(cms: map<string, ConfigMap>, ds: map<string, Deployment>, ky: Kanary) {
    && (ky.status.destination.configName != "" ==> HasConfigMap(cms, ky.name))
    && (ky.status.destination.proxyName != "" ==> HasProxy(ds, ky.name))
  }

  ghost predicate Sound(reserved: Reservations, cms: map<string, ConfigMap>, ds: map<string, Deployment>, ky: Kanary) {
    Staged(ky) && Named(reserved, ky) && Backed(cms, ds, ky)
  }

  ghost predicate PastSound(reserved: Reservations, past: set<Kanary>, cms: map<string, ConfigMap>,
                            ds: map<string, Deployment>) {
    forall p :: p in past ==> Sound(reserved, cms, ds, p)
  }

  // ---------- versions identify contents ----------

  ghost predicate KanaryHistory(kanaries: map<string, Kanary>, past: set<Kanary>, rev: nat) {
    && (forall k :: k in kanaries ==> kanaries[k].name == k && kanaries[k] in past)
    && (forall p :: p in past ==> p.version <= rev)
    && (forall p, q :: p in past && q in past && p.version == q.version ==> p == q)
  }

  ghost predicate EndpointsHistory(endpoints: EndpointsCache, past: set<Endpoints>, rev: nat) {
    && (forall n :: n in endpoints ==> endpoints[n].name == n && endpoints[n] in past)
    && (forall p :: p in past ==> p.version <= rev)
    && (forall p, q :: p in past && q in past && p.version == q.version ==> p == q)
  }

  // ---------- tasks ----------

  ghost predicate TaskSound(k: string, t: Task, past: set<Kanary>, cms: map<string, ConfigMap>,
                            ds: map<string, Deployment>, services: map<string, Service>, rev: nat) {
    && !t.Done? && t.ky in past && t.ky.name == k
    && match t
       case WriteConfig(_, expected, _) => expected != []
       case ReadProxy(ky, expected) => expected != [] && ky.status.destination.configName != ""
       case RollProxy(ky, expected, d) =>
         && expected != [] && ky.status.destination.configName != ""
         && d.name == ProxyName(k) && HasProxy(ds, k) && d.version <= rev
         && (d.version == ds[ProxyName(k)].version ==> d == ds[ProxyName(k)])
       case RecordConfig(_, expected) => expected != [] && HasConfigMap(cms, k)
       case RecordEndpoints(ky, expected) => expected != [] && ky.status.destination.configName != ""
       case AddRefs(ky, next) => next < |ky.status.endpoints| && ky.status.destination.configName != ""
       case CreateProxy(ky) => ky.status.destination.configName != ""
       case RecordProxy(ky) => ky.status.destination.configName != "" && HasProxy(ds, k)
       case RemoveService(ky) => ky.status.destination.proxyName != "" && ky.status.destination.serviceName != ""
       case PublishService(ky) => ky.status.destination.proxyName != ""
       case RecordService(ky) => ky.status.destination.proxyName != "" && ky.spec.destination in services
  }

  ghost predicate TasksSound(tasks: map<string, Task>, past: set<Kanary>, cms: map<string, ConfigMap>,
                             ds: map<string, Deployment>, services: map<string, Service>, rev: nat) {
    forall k :: k in tasks ==> TaskSound(k, tasks[k], past, cms, ds, services, rev)
  }

  // ---------- objects ----------

  /** A recorded service exists unless its Kanary's replacement is under way, and
      a reserved service selects the proxy of the Kanary it belongs to. */
  ghost predicate ServicesSound(reserved: Reservations, kanaries: map<string, Kanary>, services: map<string, Service>,
                                deleting: set<string>) {
    && (forall k :: k in kanaries && kanaries[k].status.destination.serviceName != "" ==>
          kanaries[k].status.destination.serviceName in services || k in deleting)
    && (forall n :: n in services && n in reserved ==> services[n].selector == ProxyName(reserved[n]))
  }

  ghost predicate ProxySound(k: string, d: Deployment, cms: map<string, ConfigMap>, rolls: Counts, rev: nat) {
    && d.name == ProxyName(k) && d.podLabel == ProxyName(k) && d.configVolume == ConfigMapName(k)
    && HasConfigMap(cms, k)
    && d.version <= rev
    && d.revision == Itoa(Wrap64(1 + Count(rolls, ProxyName(k))))
  }

  ghost predicate ProxiesSound(ds: map<string, Deployment>, cms: map<string, ConfigMap>, rolls: Counts, rev: nat) {
    && "" !in ds
    && (forall k: string :: HasProxy(ds, k) ==> ProxySound(k, ds[ProxyName(k)], cms, rolls, rev))
    && (forall k: string :: !HasProxy(ds, k) ==> Count(rolls, ProxyName(k)) == 0)
  }

  ghost function Rolling(tasks: map<string, Task>, k: string): nat {
    if k in tasks && (tasks[k].ReadProxy? || tasks[k].RollProxy?) then 1 else 0
  }

  ghost predicate WritesCovered(cms: map<string, ConfigMap>, writes: Counts, rolls: Counts, tasks: map<string, Task>) {
    forall k: string :: HasConfigMap(cms, k) ==>
      Count(writes, ConfigMapName(k)) >= 1 + Count(rolls, ProxyName(k)) + Rolling(tasks, k)
  }

  /** kanaryRef lists are readable, duplicate-free and name exactly the holders. */
  ghost predicate RefsSound(endpoints: EndpointsCache, holders: set<(string, string)>) {
    && (forall n :: n in endpoints ==>
          && !endpoints[n].kanaryRef.Malformed? && NoDup(endpoints[n].kanaryRef.Names())
          && forall k :: k in endpoints[n].kanaryRef.Names() <==> (n, k) in holders)
    && (forall h :: h in holders ==> h.0 in endpoints)
  }

  ghost predicate Inv(reserved: Reservations, w: World) {
    var s := w.store;
    && KanaryHistory(s.kanaries, w.past, s.rev)
    && EndpointsHistory(s.endpoints, w.pastEndpoints, s.rev)
    && PastSound(reserved, w.past, s.configMaps, s.deployments)
    && TasksSound(w.tasks, w.past, s.configMaps, s.deployments, s.services, s.rev)
    && ServicesSound(reserved, s.kanaries, s.services, w.deleting)
    && ProxiesSound(s.deployments, s.configMaps, s.rolls, s.rev)
    && WritesCovered(s.configMaps, s.configWrites, s.rolls, w.tasks)
    && RefsSound(s.endpoints, w.holders)
  }

  // ---------- tasks come and go ----------

  lemma DropKeepsInv(reserved: Reservations, w: World, k: string)
    requires Inv(reserved, w)
    ensures Inv(reserved, Drop(w, k))
  {
  }

  /** One configuration write of k has not been followed by its rolling update yet. */
  ghost predicate HasSlack(w: World, k: string) {
    Count(w.store.configWrites, ConfigMapName(k)) >= 2 + Count(w.store.rolls, ProxyName(k))
  }

  lemma SetTaskKeepsInv(reserved: Reservations, w: World, k: string, t: Task)
    requires Inv(reserved, w)
    requires !t.Done? ==> TaskSound(k, t, w.past, w.store.configMaps, w.store.deployments, w.store.services, w.store.rev)
    requires (t.ReadProxy? || t.RollProxy?) && HasConfigMap(w.store.configMaps, k) ==> HasSlack(w, k)
    ensures Inv(reserved, SetTask(w, k, t))
  {
    DropKeepsInv(reserved, w, k);
  }

  /** What the decisions after the configuration need. */
  lemma AfterConfigSound(k: string, ky: Kanary, past: set<Kanary>, cms: map<string, ConfigMap>,
                         ds: map<string, Deployment>, services: map<string, Service>, rev: nat)
    requires ky in past && ky.name == k && ky.status.destination.configName != ""
    ensures AfterConfig(ky).Done? || TaskSound(k, AfterConfig(ky), past, cms, ds, services, rev)
  {
  }

  lemma RefsFromSound(k: string, ky: Kanary, next: nat, past: set<Kanary>, cms: map<string, ConfigMap>,
                      ds: map<string, Deployment>, services: map<string, Service>, rev: nat)
    requires ky in past && ky.name == k && ky.status.destination.configName != ""
    ensures RefsFrom(ky, next).Done? || TaskSound(k, RefsFrom(ky, next), past, cms, ds, services, rev)
  {
    AfterConfigSound(k, ky, past, cms, ds, services, rev);
  }

  lemma AfterProxySound(k: string, ky: Kanary, past: set<Kanary>, cms: map<string, ConfigMap>,
                        ds: map<string, Deployment>, services: map<string, Service>, rev: nat)
    requires ky in past && ky.name == k && ky.status.destination.proxyName != ""
    ensures AfterProxy(ky).Done? || TaskSound(k, AfterProxy(ky), past, cms, ds, services, rev)
  {
  }

  lemma BeginSound(reserved: Reservations, printer: WeightPrinter, w: World, k: string, ky: Kanary, cache: EndpointsCache)
    requires Inv(reserved, w) && ky in w.past && ky.name == k
    ensures var t := Begin(printer, Found(ky), cache);
            && !t.ReadProxy? && !t.RollProxy?
            && (t.Done? || TaskSound(k, t, w.past, w.store.configMaps, w.store.deployments, w.store.services, w.store.rev))
  {
    EntriesAligned(ky.spec.routes, cache);
    assert Sound(reserved, w.store.configMaps, w.store.deployments, ky);
    hide ExpectedOf, Render, Inv;
    var s := w.store;
    if ExpectedOf(ky.spec.routes, cache).Some? && StatusCovers(ExpectedOf(ky.spec.routes, cache).value, ky.status.endpoints) {
      assert ky.status.endpoints != [];
      AfterConfigSound(k, ky, w.past, s.configMaps, s.deployments, s.services, s.rev);
    }
  }

  // ---------- status writes ----------

  lemma HistoryPut(kanaries: map<string, Kanary>, past: set<Kanary>, rev: nat, ky: Kanary)
    requires KanaryHistory(kanaries, past, rev) && ky.version == rev + 1
    ensures KanaryHistory(kanaries[ky.name := ky], past + {ky}, rev + 1)
  {
  }

  lemma PastPut(reserved: Reservations, past: set<Kanary>, cms: map<string, ConfigMap>,
                ds: map<string, Deployment>, ky: Kanary)
    requires PastSound(reserved, past, cms, ds) && Sound(reserved, cms, ds, ky)
    ensures PastSound(reserved, past + {ky}, cms, ds)
  {
  }

  lemma ServicesPut(reserved: Reservations, kanaries: map<string, Kanary>, services: map<string, Service>,
                    deleting: set<string>, ky: Kanary)
    requires ServicesSound(reserved, kanaries, services, deleting)
    requires ky.status.destination.serviceName != "" ==>
               ky.status.destination.serviceName in services || ky.name in deleting
    ensures ServicesSound(reserved, kanaries[ky.name := ky], services, deleting)
  {
  }

  lemma SoundAtAnyVersion(reserved: Reservations, cms: map<string, ConfigMap>, ds: map<string, Deployment>, ky: Kanary,
                          v: nat)
    requires Sound(reserved, cms, ds, ky)
    ensures Sound(reserved, cms, ds, ky.(version := v))
  {
  }

  /** A successful write of a Kanary. */
  lemma StoreKanaryKeepsInv(reserved: Reservations, w: World, ky: Kanary)
    requires Inv(reserved, w)
    requires Sound(reserved, w.store.configMaps, w.store.deployments, ky)
    requires ky.status.destination.serviceName != "" ==>
               ky.status.destination.serviceName in w.store.services || ky.name in w.deleting
    ensures Inv(reserved, StoreKanary(w, ky))
  {
    var s := w.store;
    var stored := ky.(version := s.rev + 1);
    SoundAtAnyVersion(reserved, s.configMaps, s.deployments, ky, s.rev + 1);
    hide KanaryHistory, EndpointsHistory, PastSound, ServicesSound, TasksSound, ProxiesSound, WritesCovered, RefsSound,
         Sound;
    HistoryPut(s.kanaries, w.past, s.rev, stored);
    PastPut(reserved, w.past, s.configMaps, s.deployments, stored);
    ServicesPut(reserved, s.kanaries, s.services, w.deleting, stored);
    LaterRevision(w, w.past + {stored}, s.rev + 1);
    EndpointsLater(s.endpoints, w.pastEndpoints, s.rev);
  }

  lemma EndpointsLater(endpoints: EndpointsCache, past: set<Endpoints>, rev: nat)
    requires EndpointsHistory(endpoints, past, rev)
    ensures EndpointsHistory(endpoints, past, rev + 1)
  {
  }

  lemma KanariesLater(kanaries: map<string, Kanary>, past: set<Kanary>, rev: nat)
    requires KanaryHistory(kanaries, past, rev)
    ensures KanaryHistory(kanaries, past, rev + 1)
  {
  }

  /** A longer past and a later revision keep what speaks of them. */
  lemma LaterRevision(w: World, past: set<Kanary>, rev: nat)
    requires w.past <= past && w.store.rev <= rev
    ensures var s := w.store;
            && (TasksSound(w.tasks, w.past, s.configMaps, s.deployments, s.services, s.rev)
                ==> TasksSound(w.tasks, past, s.configMaps, s.deployments, s.services, rev))
            && (ProxiesSound(s.deployments, s.configMaps, s.rolls, s.rev)
                ==> ProxiesSound(s.deployments, s.configMaps, s.rolls, rev))
  {
    var s := w.store;
    if TasksSound(w.tasks, w.past, s.configMaps, s.deployments, s.services, s.rev) {
      forall k | k in w.tasks ensures TaskSound(k, w.tasks[k], past, s.configMaps, s.deployments, s.services, rev) {
        assert TaskSound(k, w.tasks[k], w.past, s.configMaps, s.deployments, s.services, s.rev);
      }
    }
    if ProxiesSound(s.deployments, s.configMaps, s.rolls, s.rev) {
      forall k: string | HasProxy(s.deployments, k)
        ensures ProxySound(k, s.deployments[ProxyName(k)], s.configMaps, s.rolls, rev)
      {
        assert ProxySound(k, s.deployments[ProxyName(k)], s.configMaps, s.rolls, s.rev);
      }
    }
  }
}
