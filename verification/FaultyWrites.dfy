/** Each kind of write of the machine keeps the invariant of the faulty runs. In
    every lemma the writing sync has been taken out of the tasks; the calls put it
    back with its next step. */
module FaultyWrites {
  import opened KanaryTypes
  import opened Lists
  import opened Decimal
  import opened ExpectedStatus
  import opened BackRefs
  import opened ApiStore
  import opened SyncProtocol
  import opened FaultyRuns
  import opened FaultyInvariant

  // ---------- ConfigMaps ----------

  ghost function ConfigWritten(w: World, cm: ConfigMap): World {
    w.(store := w.store.(rev := w.store.rev + 1,
                         configMaps := w.store.configMaps[cm.name := cm],
                         configWrites := Counted(w.store.configWrites, cm.name)))
  }

  lemma MoreConfigMaps(reserved: Reservations, w: World, cms: map<string, ConfigMap>)
    requires Inv(reserved, w) && forall n :: n in w.store.configMaps ==> n in cms
    ensures var s := w.store;
            && PastSound(reserved, w.past, cms, s.deployments)
            && TasksSound(w.tasks, w.past, cms, s.deployments, s.services, s.rev)
            && ProxiesSound(s.deployments, cms, s.rolls, s.rev)
  {
    var s := w.store;
    forall p | p in w.past ensures Sound(reserved, cms, s.deployments, p) {
      assert Sound(reserved, s.configMaps, s.deployments, p);
    }
    forall j | j in w.tasks ensures TaskSound(j, w.tasks[j], w.past, cms, s.deployments, s.services, s.rev) {
      assert TaskSound(j, w.tasks[j], w.past, s.configMaps, s.deployments, s.services, s.rev);
    }
    forall j: string | HasProxy(s.deployments, j)
      ensures ProxySound(j, s.deployments[ProxyName(j)], cms, s.rolls, s.rev)
    {
      assert ProxySound(j, s.deployments[ProxyName(j)], s.configMaps, s.rolls, s.rev);
    }
  }

  lemma ProxyNeedsConfig(reserved: Reservations, w: World, k: string)
    requires Inv(reserved, w)
    ensures HasProxy(w.store.deployments, k) ==> HasConfigMap(w.store.configMaps, k)
  {
    var s := w.store;
    assert HasProxy(s.deployments, k) ==> ProxySound(k, s.deployments[ProxyName(k)], s.configMaps, s.rolls, s.rev);
  }

  lemma ConfigWriteCovered(reserved: Reservations, w: World, k: string, cm: ConfigMap)
    requires Inv(reserved, w) && k !in w.tasks && cm.name == ConfigMapName(k)
    ensures var s := ConfigWritten(w, cm).store;
            WritesCovered(s.configMaps, s.configWrites, s.rolls, w.tasks)
    ensures HasConfigMap(w.store.configMaps, k) ==> HasSlack(ConfigWritten(w, cm), k)
  {
    var s, u := w.store, ConfigWritten(w, cm).store;
    forall j: string | HasConfigMap(u.configMaps, j)
      ensures Count(u.configWrites, ConfigMapName(j)) >= 1 + Count(u.rolls, ProxyName(j)) + Rolling(w.tasks, j)
    {
      DerivedNamesInjective(j, k);
      if j == k && !HasConfigMap(s.configMaps, k) {
        ProxyNeedsConfig(reserved, w, k);
      } else {
        assert HasConfigMap(s.configMaps, j);
      }
    }
  }

  lemma ConfigWriteKeepsInv(reserved: Reservations, w: World, k: string, cm: ConfigMap)
    requires Inv(reserved, w) && k !in w.tasks && cm.name == ConfigMapName(k)
    ensures Inv(reserved, ConfigWritten(w, cm)) && HasConfigMap(ConfigWritten(w, cm).store.configMaps, k)
    ensures HasConfigMap(w.store.configMaps, k) ==> HasSlack(ConfigWritten(w, cm), k)
  {
    MoreConfigMaps(reserved, w, ConfigWritten(w, cm).store.configMaps);
    ConfigWriteCovered(reserved, w, k, cm);
    LaterRevision(w.(store := w.store.(configMaps := w.store.configMaps[cm.name := cm])), w.past, w.store.rev + 1);
    hide PastSound, TasksSound, ProxiesSound, WritesCovered, ServicesSound, RefsSound, HasSlack, Counted;
  }

  // ---------- Deployments ----------

  ghost function DeploymentWritten(w: World, d: Deployment, rolled: bool): World {
    w.(store := w.store.(rev := w.store.rev + 1,
                         deployments := w.store.deployments[d.name := d.(version := w.store.rev + 1)],
                         rolls := if rolled then Counted(w.store.rolls, d.name) else w.store.rolls))
  }

  lemma MoreDeployments(reserved: Reservations, w: World, k: string, d: Deployment)
    requires Inv(reserved, w) && k !in w.tasks && d.name == ProxyName(k)
    ensures var s := w.store;
            var ds := s.deployments[d.name := d.(version := s.rev + 1)];
            && PastSound(reserved, w.past, s.configMaps, ds)
            && TasksSound(w.tasks, w.past, s.configMaps, ds, s.services, s.rev)
  {
    var s := w.store;
    var ds := s.deployments[d.name := d.(version := s.rev + 1)];
    forall p | p in w.past ensures Sound(reserved, s.configMaps, ds, p) {
      assert Sound(reserved, s.configMaps, s.deployments, p);
    }
    forall j | j in w.tasks ensures TaskSound(j, w.tasks[j], w.past, s.configMaps, ds, s.services, s.rev) {
      hide TaskSound;
      TaskUnmoved(j, w.tasks[j], w.past, s.configMaps, s.deployments, s.services, s.rev, k, d.(version := s.rev + 1));
    }
  }

  lemma TaskUnmoved(j: string, t: Task, past: set<Kanary>, cms: map<string, ConfigMap>, ds: map<string, Deployment>,
                    services: map<string, Service>, rev: nat, k: string, d: Deployment)
    requires TaskSound(j, t, past, cms, ds, services, rev) && j != k && d.name == ProxyName(k)
    ensures TaskSound(j, t, past, cms, ds[d.name := d], services, rev)
  {
    DerivedNamesInjective(j, k);
  }

  /** The revision the written Deployment must carry. */
  ghost predicate NextProxy(w: World, k: string, d: Deployment, rolled: bool) {
    && d.name == ProxyName(k) && d.podLabel == ProxyName(k) && d.configVolume == ConfigMapName(k)
    && HasConfigMap(w.store.configMaps, k)
    && d.revision == Itoa(Wrap64(1 + Count(w.store.rolls, ProxyName(k)) + if rolled then 1 else 0))
  }

  lemma ProxiesWritten(reserved: Reservations, w: World, k: string, d: Deployment, rolled: bool)
    requires Inv(reserved, w) && NextProxy(w, k, d, rolled)
    ensures var s := DeploymentWritten(w, d, rolled).store;
            ProxiesSound(s.deployments, s.configMaps, s.rolls, s.rev)
  {
    hide Inv, Counted, Count, HasConfigMap, ProxySound, ProxiesSound, ProxyName, ConfigMapName, Wrap64, Itoa;
    var s := w.store;
    var later := if rolled then Counted(s.rolls, d.name) else s.rolls;
    NextIsSound(w, k, d, rolled);
    CountedOnce(s.rolls, ProxyName(k));
    InvProxies(reserved, w);
    ProxyStored(s.deployments, s.configMaps, s.rolls, later, s.rev, k, d.(version := s.rev + 1));
  }

  lemma NextIsSound(w: World, k: string, d: Deployment, rolled: bool)
    requires NextProxy(w, k, d, rolled)
    ensures var s := w.store;
            ProxySound(k, d.(version := s.rev + 1), s.configMaps,
                       if rolled then Counted(s.rolls, d.name) else s.rolls, s.rev + 1)
  {
    CountedOnce(w.store.rolls, ProxyName(k));
    hide Wrap64, Itoa, Count, Counted, HasConfigMap;
  }

  lemma CountedOnce(counts: Counts, n: string)
    ensures Count(Counted(counts, n), n) == Count(counts, n) + 1
    ensures forall c :: c != n ==> Count(Counted(counts, n), c) == Count(counts, c)
  {
  }

  lemma InvProxies(reserved: Reservations, w: World)
    requires Inv(reserved, w)
    ensures ProxiesSound(w.store.deployments, w.store.configMaps, w.store.rolls, w.store.rev)
  {
  }

  lemma ProxyStored(ds: map<string, Deployment>, cms: map<string, ConfigMap>, rolls: Counts, later: Counts, rev: nat,
                    k: string, d: Deployment)
    requires ProxiesSound(ds, cms, rolls, rev) && d.name == ProxyName(k)
    requires ProxySound(k, d, cms, later, rev + 1)
    requires forall c :: c != ProxyName(k) ==> Count(later, c) == Count(rolls, c)
    ensures ProxiesSound(ds[d.name := d], cms, later, rev + 1)
  {
    hide Wrap64, Itoa, Count;
    forall j: string
      ensures HasProxy(ds[d.name := d], j) ==> ProxySound(j, ds[d.name := d][ProxyName(j)], cms, later, rev + 1)
      ensures !HasProxy(ds[d.name := d], j) ==> Count(later, ProxyName(j)) == 0
    {
      DerivedNamesInjective(j, k);
      assert HasProxy(ds, j) ==> ProxySound(j, ds[ProxyName(j)], cms, rolls, rev);
    }
  }

  lemma RollsCovered(reserved: Reservations, w: World, k: string, d: Deployment, rolled: bool)
    requires Inv(reserved, w) && k !in w.tasks && d.name == ProxyName(k) && (rolled ==> HasSlack(w, k))
    ensures var s := DeploymentWritten(w, d, rolled).store;
            WritesCovered(s.configMaps, s.configWrites, s.rolls, w.tasks)
  {
    var s, u := w.store, DeploymentWritten(w, d, rolled).store;
    forall j: string | HasConfigMap(u.configMaps, j)
      ensures Count(u.configWrites, ConfigMapName(j)) >= 1 + Count(u.rolls, ProxyName(j)) + Rolling(w.tasks, j)
    {
      DerivedNamesInjective(j, k);
      assert HasConfigMap(s.configMaps, j);
    }
  }

  lemma DeploymentWriteKeepsInv(reserved: Reservations, w: World, k: string, d: Deployment, rolled: bool)
    requires Inv(reserved, w) && k !in w.tasks && NextProxy(w, k, d, rolled) && (rolled ==> HasSlack(w, k))
    ensures Inv(reserved, DeploymentWritten(w, d, rolled))
  {
    hide Count, Wrap64, Itoa, HasProxy, HasConfigMap;
    MoreDeployments(reserved, w, k, d);
    ProxiesWritten(reserved, w, k, d, rolled);
    RollsCovered(reserved, w, k, d, rolled);
    LaterRevision(w.(store := w.store.(deployments := DeploymentWritten(w, d, rolled).store.deployments)),
                  w.past, w.store.rev + 1);
    hide PastSound, TasksSound, ProxiesSound, WritesCovered, ServicesSound, RefsSound, HasSlack, Counted, NextProxy;
  }

  /** A status update of a Deployment by the cluster: only the version changes. */
  ghost function Touched(w: World, d: string): World
    requires d in w.store.deployments
  {
    w.(store := w.store.(rev := w.store.rev + 1,
                         deployments := w.store.deployments[d := w.store.deployments[d].(version := w.store.rev + 1)]))
  }

  lemma TouchedPastAndTasks(reserved: Reservations, w: World, d: string)
    requires Inv(reserved, w) && d in w.store.deployments
    ensures var s := Touched(w, d).store;
            && PastSound(reserved, w.past, s.configMaps, s.deployments)
            && TasksSound(w.tasks, w.past, s.configMaps, s.deployments, s.services, s.rev)
  {
    var s, u := w.store, Touched(w, d).store;
    forall p | p in w.past ensures Sound(reserved, s.configMaps, u.deployments, p) {
      assert Sound(reserved, s.configMaps, s.deployments, p);
    }
    forall j | j in w.tasks ensures TaskSound(j, w.tasks[j], w.past, s.configMaps, u.deployments, s.services, u.rev) {
      assert TaskSound(j, w.tasks[j], w.past, s.configMaps, s.deployments, s.services, s.rev);
    }
  }

  lemma TouchedProxies(reserved: Reservations, w: World, d: string)
    requires Inv(reserved, w) && d in w.store.deployments
    ensures var s := Touched(w, d).store; ProxiesSound(s.deployments, s.configMaps, s.rolls, s.rev)
  {
    var s, u := w.store, Touched(w, d).store;
    forall j: string | HasProxy(u.deployments, j)
      ensures ProxySound(j, u.deployments[ProxyName(j)], u.configMaps, u.rolls, u.rev)
    {
      assert HasProxy(s.deployments, j);
      assert ProxySound(j, s.deployments[ProxyName(j)], s.configMaps, s.rolls, s.rev);
    }
    forall j: string | !HasProxy(u.deployments, j) ensures Count(u.rolls, ProxyName(j)) == 0 {
      assert !HasProxy(s.deployments, j);
    }
  }

  lemma TouchKeepsInv(reserved: Reservations, w: World, d: string)
    requires Inv(reserved, w) && d in w.store.deployments
    ensures Inv(reserved, Touched(w, d))
  {
    TouchedPastAndTasks(reserved, w, d);
    TouchedProxies(reserved, w, d);
    KanariesLater(w.store.kanaries, w.past, w.store.rev);
    EndpointsLater(w.store.endpoints, w.pastEndpoints, w.store.rev);
    hide KanaryHistory, EndpointsHistory, PastSound, ServicesSound, TasksSound, ProxiesSound, WritesCovered, RefsSound;
  }

  // ---------- Services ----------

  ghost function ServicesSet(w: World, services: map<string, Service>, deleting: set<string>): World {
    w.(store := w.store.(rev := w.store.rev + 1, services := services), deleting := deleting)
  }

  /** Tasks look at no service but the one they have just published. */
  lemma TasksWithServices(w: World, services: map<string, Service>)
    requires var s := w.store; TasksSound(w.tasks, w.past, s.configMaps, s.deployments, s.services, s.rev)
    requires forall j :: j in w.tasks && w.tasks[j].RecordService? && w.tasks[j].ky.spec.destination in w.store.services
                         ==> w.tasks[j].ky.spec.destination in services
    ensures var s := w.store; TasksSound(w.tasks, w.past, s.configMaps, s.deployments, services, s.rev + 1)
  {
    var s := w.store;
    forall j | j in w.tasks ensures TaskSound(j, w.tasks[j], w.past, s.configMaps, s.deployments, services, s.rev + 1) {
      assert TaskSound(j, w.tasks[j], w.past, s.configMaps, s.deployments, s.services, s.rev);
    }
  }

  lemma ServicesSetKeepsInv(reserved: Reservations, w: World, services: map<string, Service>, deleting: set<string>)
    requires Inv(reserved, w)
    requires var s := w.store; TasksSound(w.tasks, w.past, s.configMaps, s.deployments, services, s.rev + 1)
    requires ServicesSound(reserved, w.store.kanaries, services, deleting)
    ensures Inv(reserved, ServicesSet(w, services, deleting))
  {
    LaterRevision(w, w.past, w.store.rev + 1);
    KanariesLater(w.store.kanaries, w.past, w.store.rev);
    EndpointsLater(w.store.endpoints, w.pastEndpoints, w.store.rev);
    hide KanaryHistory, EndpointsHistory, PastSound, ServicesSound, TasksSound, ProxiesSound, WritesCovered, RefsSound;
  }

  lemma ServicePutKeepsInv(reserved: Reservations, w: World, svc: Service)
    requires Inv(reserved, w)
    requires svc.name in reserved ==> svc.selector == ProxyName(reserved[svc.name])
    ensures Inv(reserved, ServicesSet(w, w.store.services[svc.name := svc], w.deleting))
  {
    hide KanaryHistory, EndpointsHistory, PastSound, TasksSound, ProxiesSound, WritesCovered, RefsSound;
    TasksWithServices(w, w.store.services[svc.name := svc]);
    ServicesSetKeepsInv(reserved, w, w.store.services[svc.name := svc], w.deleting);
  }

  /** Deleting a Service that belongs to a Kanary without a task, or to nobody. */
  lemma ServiceDeleteKeepsInv(reserved: Reservations, w: World, name: string, deleting: set<string>)
    requires Inv(reserved, w) && w.deleting <= deleting
    requires name in reserved ==> reserved[name] !in w.tasks && reserved[name] in deleting
    ensures Inv(reserved, ServicesSet(w, w.store.services - {name}, deleting))
  {
    var s := w.store;
    var services := s.services - {name};
    forall j | j in w.tasks && w.tasks[j].RecordService? && w.tasks[j].ky.spec.destination in s.services
      ensures w.tasks[j].ky.spec.destination in services
    {
      assert TaskSound(j, w.tasks[j], w.past, s.configMaps, s.deployments, s.services, s.rev);
      assert Sound(reserved, s.configMaps, s.deployments, w.tasks[j].ky);
    }
    TasksWithServices(w, services);
    forall j | j in s.kanaries && s.kanaries[j].status.destination.serviceName != ""
      ensures s.kanaries[j].status.destination.serviceName in services || j in deleting
    {
      assert Sound(reserved, s.configMaps, s.deployments, s.kanaries[j]);
    }
    assert ServicesSound(reserved, s.kanaries, services, deleting);
    hide Inv, ServicesSound, TasksSound;
    ServicesSetKeepsInv(reserved, w, services, deleting);
  }

  // ---------- Endpoints ----------

  ghost function EndpointsWritten(w: World, ep: Endpoints, holders: set<(string, string)>): World {
    StoreEndpoints(w, ep).(holders := holders)
  }

  lemma RefsPut(endpoints: EndpointsCache, before: set<(string, string)>, ep: Endpoints, holders: set<(string, string)>)
    requires RefsSound(endpoints, before)
    requires !ep.kanaryRef.Malformed? && NoDup(ep.kanaryRef.Names())
    requires forall k :: k in ep.kanaryRef.Names() <==> (ep.name, k) in holders
    requires forall n, k :: n != ep.name ==> ((n, k) in holders <==> (n, k) in before)
    ensures RefsSound(endpoints[ep.name := ep], holders)
  {
    var m := endpoints[ep.name := ep];
    forall h | h in holders ensures h.0 in m {
      assert h == (h.0, h.1);
    }
  }

  lemma EndpointsHistoryPut(endpoints: EndpointsCache, past: set<Endpoints>, rev: nat, ep: Endpoints)
    requires EndpointsHistory(endpoints, past, rev) && ep.version == rev + 1
    ensures EndpointsHistory(endpoints[ep.name := ep], past + {ep}, rev + 1)
  {
  }

  lemma EndpointsWriteKeepsInv(reserved: Reservations, w: World, ep: Endpoints, holders: set<(string, string)>)
    requires Inv(reserved, w)
    requires !ep.kanaryRef.Malformed? && NoDup(ep.kanaryRef.Names())
    requires forall k :: k in ep.kanaryRef.Names() <==> (ep.name, k) in holders
    requires forall n, k :: n != ep.name ==> ((n, k) in holders <==> (n, k) in w.holders)
    ensures Inv(reserved, EndpointsWritten(w, ep, holders))
  {
    hide KanaryHistory, EndpointsHistory, PastSound, TasksSound, ProxiesSound, WritesCovered, ServicesSound, RefsSound, NoDup;
    var s := w.store;
    var stored := ep.(version := s.rev + 1);
    RefsPut(s.endpoints, w.holders, stored, holders);
    EndpointsHistoryPut(s.endpoints, w.pastEndpoints, s.rev, stored);
    KanariesLater(s.kanaries, w.past, s.rev);
    LaterRevision(w, w.past, s.rev + 1);
  }

  /** Two stored versions of one Endpoints object that carry the same version are
      the same, so an accepted update was computed from the current object. */
  lemma AcceptedIsCurrent(w: World, reserved: Reservations, seen: Endpoints)
    requires Inv(reserved, w) && seen in w.pastEndpoints
    requires seen.name in w.store.endpoints && w.store.endpoints[seen.name].version == seen.version
    ensures w.store.endpoints[seen.name] == seen
  {
  }

  lemma AddHolderKeepsInv(reserved: Reservations, w: World, seen: Endpoints, k: string)
    requires Inv(reserved, w) && seen.name in w.store.endpoints && w.store.endpoints[seen.name] == seen
    requires AddRef(seen.kanaryRef, k).Some?
    ensures Inv(reserved, EndpointsWritten(w, seen.(kanaryRef := AddRef(seen.kanaryRef, k).value),
                                           w.holders + {(seen.name, k)}))
  {
    AddRefSpec(seen.kanaryRef, k);
    EndpointsWriteKeepsInv(reserved, w, seen.(kanaryRef := AddRef(seen.kanaryRef, k).value), w.holders + {(seen.name, k)});
  }

  lemma RemoveHolderKeepsInv(reserved: Reservations, w: World, seen: Endpoints, k: string)
    requires Inv(reserved, w) && seen.name in w.store.endpoints && w.store.endpoints[seen.name] == seen
    requires DeleteRef(seen.kanaryRef, k).Deleted?
    ensures Inv(reserved, EndpointsWritten(w, seen.(kanaryRef := DeleteRef(seen.kanaryRef, k).annotation),
                                           w.holders - {(seen.name, k)}))
  {
    DeleteRefSpec(seen.kanaryRef, k);
    EndpointsWriteKeepsInv(reserved, w, seen.(kanaryRef := DeleteRef(seen.kanaryRef, k).annotation),
                           w.holders - {(seen.name, k)});
  }
}
