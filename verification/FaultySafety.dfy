/** The invariant of the faulty runs is kept by every event, and what it says in
    every reachable state. */
module FaultySafety {
  import opened KanaryTypes
  import opened Lists
  import opened Decimal
  import opened ExpectedStatus
  import opened ConfigText
  import opened BackRefs
  import opened ApiStore
  import opened SyncProtocol
  import opened FaultyRuns
  import opened FaultyInvariant
  import opened FaultyWrites

  ghost predicate Sane(w: World, k: string, t: Task) {
    TaskSound(k, t, w.past, w.store.configMaps, w.store.deployments, w.store.services, w.store.rev)
  }

  /** Putting the calling sync back with its next step. */
  lemma Finish(reserved: Reservations, w: World, k: string, t: Task, s: Store, w1: World, t1: Task)
    requires Inv(reserved, w1) && w1.tasks == w.tasks - {k}
    requires AfterCall(w, k, t, s) == w1.(tasks := w.tasks)
    requires t1.Done? || Sane(w1, k, t1)
    requires (t1.ReadProxy? || t1.RollProxy?) && HasConfigMap(w1.store.configMaps, k) ==> HasSlack(w1, k)
    ensures Inv(reserved, SetTask(AfterCall(w, k, t, s), k, t1))
  {
    SetTaskKeepsInv(reserved, w1, k, t1);
    hide Inv, AfterCall, TaskSound, HasSlack;
    SameTasks(w.tasks, k, t1);
  }

  lemma SameTasks(tasks: map<string, Task>, k: string, t: Task)
    ensures tasks[k := t] == (tasks - {k})[k := t]
    ensures tasks - {k} == (tasks - {k}) - {k}
  {
  }

  ghost predicate CallReady(reserved: Reservations, w: World, k: string, tick: Tick) {
    && Inv(reserved, w)
    && k in w.tasks
    && (tick.cache.Some? ==> CacheFromPast(tick.cache.value, w.pastEndpoints))
  }

  // ---------- the calls ----------

  lemma WriteConfigShape(w: World, k: string, tick: Tick)
    requires k in w.tasks && w.tasks[k].WriteConfig?
    ensures var t := w.tasks[k];
            var (s, t1) := Step(w.store, t, tick);
            || (s == w.store && t1.Done?)
            || (&& s == ConfigWritten(w, NewConfigMap(t.ky, t.config)).store
                && (|| t1.Done?
                    || (t.ky.status.destination.configName == "" && t1 == RecordConfig(t.ky, t.expected))
                    || (&& t.ky.status.destination.configName != "" && t1 == ReadProxy(t.ky, t.expected)
                        && HasConfigMap(w.store.configMaps, t.ky.name))))
  {
    hide ConfigMapName, Counted;
    var t := w.tasks[k];
    assert NewConfigMap(t.ky, t.config).name == ConfigMapName(t.ky.name);
  }

  lemma ConfigMapNamed(ky: Kanary, config: string)
    ensures NewConfigMap(ky, config).name == ConfigMapName(ky.name)
  {
  }

  lemma AfterConfigWrite(w: World, k: string, t: Task, s: Store)
    requires t.WriteConfig?
    ensures AfterCall(w, k, t, s) == w.(store := s)
  {
  }

  /** A task that writes its configuration can go on in the world it wrote to. */
  lemma ConfigWriterSane(w: World, k: string, tick: Tick, w1: World)
    requires k in w.tasks && w.tasks[k].WriteConfig? && Sane(w, k, w.tasks[k]) && w1.past == w.past
    requires HasConfigMap(w1.store.configMaps, k) || Step(w.store, w.tasks[k], tick).1.Done?
    ensures var t1 := Step(w.store, w.tasks[k], tick).1; t1.Done? || Sane(w1, k, t1)
  {
    WriteConfigShape(w, k, tick);
    hide Step, NewConfigMap;
  }

  lemma CallWriteConfig(reserved: Reservations, w: World, k: string, tick: Tick)
    requires CallReady(reserved, w, k, tick) && w.tasks[k].WriteConfig?
    ensures Inv(reserved, ApplyCall(w, k, tick))
  {
    var w0, t := Drop(w, k), w.tasks[k];
    var cm := NewConfigMap(t.ky, t.config);
    var (s, t1) := Step(w.store, t, tick);
    assert Sane(w, k, t);
    WriteConfigShape(w, k, tick);
    hide Inv, Step, HasSlack, Counted, NewConfigMap, Count, TaskSound, AfterCall;
    assert t.ky.name == k by { TaskOwner(reserved, w, k); }
    ConfigMapNamed(t.ky, t.config);
    DropKeepsInv(reserved, w, k);
    ConfigWriteKeepsInv(reserved, w0, k, cm);
    AfterConfigWrite(w, k, t, s);
    if s == w.store && t1.Done? {
      Finish(reserved, w, k, t, s, w0, t1);
    } else {
      ConfigWriterSane(w, k, tick, ConfigWritten(w0, cm));
      Finish(reserved, w, k, t, s, ConfigWritten(w0, cm), t1);
    }
  }

  lemma TaskOwner(reserved: Reservations, w: World, k: string)
    requires Inv(reserved, w) && k in w.tasks
    ensures w.tasks[k].Done? || w.tasks[k].ky.name == k
  {
    assert Sane(w, k, w.tasks[k]);
  }

  lemma ReadProxyShape(w: World, k: string, tick: Tick)
    requires k in w.tasks && w.tasks[k].ReadProxy?
    ensures var t := w.tasks[k];
            var (s, t1) := Step(w.store, t, tick);
            var proxy := t.ky.status.destination.proxyName;
            && s == w.store
            && (t1.Done? || (proxy in w.store.deployments
                             && t1 == RollProxy(t.ky, t.expected, w.store.deployments[proxy])))
  {
  }

  lemma ReadProxySane(reserved: Reservations, w: World, k: string)
    requires Inv(reserved, w) && k in w.tasks && w.tasks[k].ReadProxy?
    requires w.tasks[k].ky.status.destination.proxyName in w.store.deployments
    ensures var t := w.tasks[k];
            Sane(w, k, RollProxy(t.ky, t.expected, w.store.deployments[t.ky.status.destination.proxyName]))
  {
    var t := w.tasks[k];
    assert Sane(w, k, t);
    assert Sound(reserved, w.store.configMaps, w.store.deployments, t.ky);
    assert HasProxy(w.store.deployments, k);
    assert ProxySound(k, w.store.deployments[ProxyName(k)], w.store.configMaps, w.store.rolls, w.store.rev);
  }

  lemma CallReadProxy(reserved: Reservations, w: World, k: string, tick: Tick)
    requires CallReady(reserved, w, k, tick) && w.tasks[k].ReadProxy?
    ensures Inv(reserved, ApplyCall(w, k, tick))
  {
    hide Inv, Step, TaskSound, HasSlack;
    var w0, t := Drop(w, k), w.tasks[k];
    var (s, t1) := Step(w.store, t, tick);
    ReadProxyShape(w, k, tick);
    if !t1.Done? {
      ReadProxySane(reserved, w, k);
      SlackWhileRolling(reserved, w, k);
      SameSlack(w, k);
    } else {
      TaskInProgress(reserved, w, k);
    }
    DropKeepsInv(reserved, w, k);
    Finish(reserved, w, k, t, s, w0, t1);
  }

  lemma SameSlack(w: World, k: string)
    ensures HasSlack(Drop(w, k), k) == HasSlack(w, k)
  {
  }

  /** A rolling sync has written its configuration and not rolled yet. */
  lemma SlackWhileRolling(reserved: Reservations, w: World, k: string)
    requires Inv(reserved, w) && k in w.tasks && (w.tasks[k].ReadProxy? || w.tasks[k].RollProxy?)
    ensures HasConfigMap(w.store.configMaps, k) ==> HasSlack(w, k)
  {
  }

  lemma RollProxyShape(w: World, k: string, tick: Tick)
    requires k in w.tasks && w.tasks[k].RollProxy?
    ensures var t := w.tasks[k];
            var (s, t1) := Step(w.store, t, tick);
            || (s == w.store && t1.Done?)
            || (&& t.deployment.name in w.store.deployments
                && w.store.deployments[t.deployment.name].version == t.deployment.version
                && s == DeploymentWritten(w, Rolled(t.deployment), true).store
                && (t1.Done? || t1 == RecordConfig(t.ky, t.expected)))
  {
    RolledName(w.tasks[k].deployment);
    hide Rolled, Counted;
  }

  lemma RollingProxy(reserved: Reservations, w: World, k: string)
    requires Inv(reserved, w) && k in w.tasks && w.tasks[k].RollProxy?
    ensures HasProxy(w.store.deployments, k) && HasConfigMap(w.store.configMaps, k) && HasSlack(w, k)
    ensures w.tasks[k].deployment.name == ProxyName(k)
    ensures w.store.deployments[ProxyName(k)].version == w.tasks[k].deployment.version ==>
              w.store.deployments[ProxyName(k)] == w.tasks[k].deployment
    ensures ProxySound(k, w.store.deployments[ProxyName(k)], w.store.configMaps, w.store.rolls, w.store.rev)
  {
    assert Sane(w, k, w.tasks[k]);
    assert ProxySound(k, w.store.deployments[ProxyName(k)], w.store.configMaps, w.store.rolls, w.store.rev);
    SlackWhileRolling(reserved, w, k);
  }

  lemma RolledIsNext(w: World, k: string, d: Deployment)
    requires ProxySound(k, d, w.store.configMaps, w.store.rolls, w.store.rev)
    ensures NextProxy(w, k, Rolled(d), true)
  {
    hide Rolled, Itoa, Wrap64, Count;
    RolledName(d);
    RolledRevision(d, 1 + Count(w.store.rolls, ProxyName(k)));
  }

  /** A copy that is still current carries the revision of the rolls so far. */
  lemma RollIsNext(reserved: Reservations, w: World, k: string)
    requires Inv(reserved, w) && k in w.tasks && w.tasks[k].RollProxy?
    ensures var d := w.tasks[k].deployment;
            && d.name == ProxyName(k)
            && (d.name in w.store.deployments && w.store.deployments[d.name].version == d.version ==>
                  NextProxy(w, k, Rolled(d), true) && HasSlack(w, k))
  {
    RollingProxy(reserved, w, k);
    hide Inv, HasSlack, Rolled, NextProxy, ProxySound;
    if w.store.deployments[ProxyName(k)].version == w.tasks[k].deployment.version {
      RolledIsNext(w, k, w.tasks[k].deployment);
    }
  }

  /** The bookkeeping of a successful Deployment write. */
  lemma AfterProxyWrite(w: World, k: string, t: Task, d: Deployment, rolled: bool)
    requires t.RollProxy? || t.CreateProxy?
    ensures var w1 := DeploymentWritten(Drop(w, k), d, rolled);
            && AfterCall(w, k, t, DeploymentWritten(w, d, rolled).store) == w1.(tasks := w.tasks)
            && w1.tasks == w.tasks - {k} && w1.past == w.past && w1.store.configMaps == w.store.configMaps
            && HasProxy(w1.store.deployments, k) == (HasProxy(w.store.deployments, k) || d.name == ProxyName(k))
  {
    hide Counted;
  }

  lemma CallRollProxy(reserved: Reservations, w: World, k: string, tick: Tick)
    requires CallReady(reserved, w, k, tick) && w.tasks[k].RollProxy?
    ensures Inv(reserved, ApplyCall(w, k, tick))
  {
    var w0, t, st := Drop(w, k), w.tasks[k], w.store;
    var d := Rolled(t.deployment);
    RollIsNext(reserved, w, k);
    RollProxyShape(w, k, tick);
    RecordConfigSane(reserved, w, k);
    DropKeepsInv(reserved, w, k);
    hide Inv, Step, Rolled, NextProxy, HasSlack, TaskSound, DeploymentWritten;
    var (s, t1) := Step(st, t, tick);
    if s == st {
      Finish(reserved, w, k, t, s, w0, t1);
    } else {
      SameProxyFacts(w, k, d);
      RolledName(t.deployment);
      AfterProxyWrite(w, k, t, d, true);
      DeploymentWriteKeepsInv(reserved, w0, k, d, true);
      hide AfterCall, Drop;
      Finish(reserved, w, k, t, s, DeploymentWritten(w0, d, true), t1);
    }
  }

  /** After its rolling update a sync may record its configuration. */
  lemma RecordConfigSane(reserved: Reservations, w: World, k: string)
    requires Inv(reserved, w) && k in w.tasks && w.tasks[k].RollProxy?
    ensures forall w1: World :: w1.past == w.past && w1.store.configMaps == w.store.configMaps ==>
              Sane(w1, k, RecordConfig(w.tasks[k].ky, w.tasks[k].expected))
  {
    assert Sane(w, k, w.tasks[k]);
    assert Sound(reserved, w.store.configMaps, w.store.deployments, w.tasks[k].ky);
  }

  lemma SameProxyFacts(w: World, k: string, d: Deployment)
    ensures NextProxy(Drop(w, k), k, d, true) == NextProxy(w, k, d, true) && HasSlack(Drop(w, k), k) == HasSlack(w, k)
    ensures NextProxy(Drop(w, k), k, d, false) == NextProxy(w, k, d, false)
  {
  }

  lemma CreateProxyShape(w: World, k: string, tick: Tick)
    requires k in w.tasks && w.tasks[k].CreateProxy?
    ensures var t := w.tasks[k];
            var (s, t1) := Step(w.store, t, tick);
            || (s == w.store && t1.Done?)
            || (&& !HasProxy(w.store.deployments, t.ky.name)
                && s == DeploymentWritten(w, NewDeployment(t.ky), false).store
                && (t1.Done? || t1 == RecordProxy(t.ky)))
  {
    hide ProxyName;
  }

  lemma CreateIsNext(reserved: Reservations, w: World, k: string)
    requires Inv(reserved, w) && k in w.tasks && w.tasks[k].CreateProxy?
    ensures w.tasks[k].ky in w.past && w.tasks[k].ky.name == k && w.tasks[k].ky.status.destination.configName != ""
    ensures !HasProxy(w.store.deployments, k) ==> NextProxy(w, k, NewDeployment(w.tasks[k].ky), false)
  {
    assert Sane(w, k, w.tasks[k]);
    assert Sound(reserved, w.store.configMaps, w.store.deployments, w.tasks[k].ky);
    FirstRevision();
    hide Itoa, Wrap64;
  }

  lemma RecordProxySane(w1: World, k: string, ky: Kanary)
    requires ky in w1.past && ky.name == k && ky.status.destination.configName != "" && HasProxy(w1.store.deployments, k)
    ensures Sane(w1, k, RecordProxy(ky))
  {
  }

  lemma CallCreateProxy(reserved: Reservations, w: World, k: string, tick: Tick)
    requires CallReady(reserved, w, k, tick) && w.tasks[k].CreateProxy?
    ensures Inv(reserved, ApplyCall(w, k, tick))
  {
    var w0, t, st := Drop(w, k), w.tasks[k], w.store;
    var d := NewDeployment(t.ky);
    CreateIsNext(reserved, w, k);
    CreateProxyShape(w, k, tick);
    DropKeepsInv(reserved, w, k);
    hide Inv, Step, NextProxy, HasSlack, DeploymentWritten;
    var (s, t1) := Step(st, t, tick);
    if s == st {
      Finish(reserved, w, k, t, s, w0, t1);
    } else {
      SameProxyFacts(w, k, d);
      AfterProxyWrite(w, k, t, d, false);
      DeploymentWriteKeepsInv(reserved, w0, k, d, false);
      RecordProxySane(DeploymentWritten(w0, d, false), k, t.ky);
      hide AfterCall, Drop, TaskSound;
      Finish(reserved, w, k, t, s, DeploymentWritten(w0, d, false), t1);
    }
  }

  /** The Kanary a status step writes. */
  ghost function Recorded(t: Task): Kanary
    requires t.RecordConfig? || t.RecordEndpoints? || t.RecordProxy? || t.RecordService?
  {
    match t
    case RecordConfig(ky, _) => ky.WithConfigName(ConfigMapName(ky.name))
    case RecordEndpoints(ky, expected) => ky.WithEndpoints(expected)
    case RecordProxy(ky) => ky.WithProxyName(ProxyName(ky.name))
    case RecordService(ky) => ky.WithServiceName(ky.spec.destination)
  }

  /** The step after a status write that stored ky. */
  ghost function AfterRecord(t: Task, ky: Kanary): Task
    requires t.RecordConfig? || t.RecordEndpoints? || t.RecordProxy? || t.RecordService?
  {
    match t
    case RecordConfig(_, expected) => RecordEndpoints(ky, expected)
    case RecordEndpoints(_, _) => RefsFrom(ky, 0)
    case RecordProxy(_) => AfterProxy(ky)
    case RecordService(_) => Done(false)
  }

  lemma UpdateShape(verdict: Verdict, w: World, ky: Kanary)
    ensures var a := Served(verdict, w.store, UpdateKanary(w.store, ky));
            || (a.store == w.store && a.reply.None?)
            || (&& ky.name in w.store.kanaries && w.store.kanaries[ky.name].version == ky.version
                && a.store == StoreKanary(w, ky).store
                && (a.reply.None? || a.reply == Some(a.store.kanaries[ky.name])))
  {
  }

  lemma RecordShape(w: World, k: string, tick: Tick)
    requires k in w.tasks
    requires var t := w.tasks[k]; t.RecordConfig? || t.RecordEndpoints? || t.RecordProxy? || t.RecordService?
    ensures var t := w.tasks[k];
            var (s, t1) := Step(w.store, t, tick);
            || (s == w.store && t1.Done?)
            || (&& t.ky.name in w.store.kanaries && w.store.kanaries[t.ky.name].version == t.ky.version
                && s == StoreKanary(w, Recorded(t)).store
                && (t1.Done? || t1 == AfterRecord(t, s.kanaries[t.ky.name])))
  {
    UpdateShape(tick.verdict, w, Recorded(w.tasks[k]));
    hide RefsFrom, AfterProxy, ConfigMapName, ProxyName, UpdateKanary, Served, StoreKanary;
  }

  lemma RecordedSound(reserved: Reservations, w: World, k: string)
    requires Inv(reserved, w) && k in w.tasks
    requires var t := w.tasks[k]; t.RecordConfig? || t.RecordEndpoints? || t.RecordProxy? || t.RecordService?
    requires k in w.store.kanaries && w.store.kanaries[k] == w.tasks[k].ky
    ensures var ky := Recorded(w.tasks[k]);
            && Sound(reserved, w.store.configMaps, w.store.deployments, ky)
            && (ky.status.destination.serviceName != "" ==>
                  ky.status.destination.serviceName in w.store.services || ky.name in w.deleting)
            && (w.tasks[k].RecordService? ==> ky.status.destination.serviceName in w.store.services)
  {
    assert Sane(w, k, w.tasks[k]);
    assert Sound(reserved, w.store.configMaps, w.store.deployments, w.tasks[k].ky);
  }

  /** A completed service status write ends the replacement. */
  lemma ClearDeleting(reserved: Reservations, w: World, k: string)
    requires Inv(reserved, w)
    requires k in w.store.kanaries ==> w.store.kanaries[k].status.destination.serviceName in w.store.services
    ensures Inv(reserved, w.(deleting := w.deleting - {k}))
  {
  }

  lemma AfterRecordSane(w1: World, k: string, t: Task, ky: Kanary, cms: map<string, ConfigMap>)
    requires t.RecordConfig? || t.RecordEndpoints? || t.RecordProxy? || t.RecordService?
    requires Sane(w1.(store := w1.store.(configMaps := cms)), k, t)
    requires ky in w1.past && ky == Recorded(t).(version := ky.version)
    ensures AfterRecord(t, ky).Done? || Sane(w1, k, AfterRecord(t, ky))
    ensures !AfterRecord(t, ky).ReadProxy? && !AfterRecord(t, ky).RollProxy?
  {
    var s := w1.store;
    match t
    case RecordConfig(_, _) =>
    case RecordEndpoints(_, _) => RefsFromSound(k, ky, 0, w1.past, s.configMaps, s.deployments, s.services, s.rev);
    case RecordProxy(_) => AfterProxySound(k, ky, w1.past, s.configMaps, s.deployments, s.services, s.rev);
    case RecordService(_) =>
  }

  /** An accepted status write was computed from the current Kanary. */
  lemma RecordIsCurrent(reserved: Reservations, w: World, k: string)
    requires Inv(reserved, w) && k in w.tasks && k in w.store.kanaries && !w.tasks[k].Done?
    requires w.store.kanaries[k].version == w.tasks[k].ky.version
    ensures w.store.kanaries[k] == w.tasks[k].ky
  {
    assert Sane(w, k, w.tasks[k]);
  }

  lemma AfterStatusWrite(w: World, k: string, t: Task, ky: Kanary)
    requires ky.name == k && (t.RecordConfig? || t.RecordEndpoints? || t.RecordProxy? || t.RecordService?)
    ensures var w1 := StoreKanary(Drop(w, k), ky);
            && k in w1.store.kanaries && w1.store.kanaries[k] in w1.past
            && w1.store.kanaries[k] == ky.(version := w.store.rev + 1)
            && w1.tasks == w.tasks - {k} && w1.store.services == w.store.services
            && AfterCall(w, k, t, StoreKanary(w, ky).store)
               == w1.(tasks := w.tasks, deleting := if t.RecordService? then w1.deleting - {k} else w1.deleting)
  {
  }

  lemma LaterSane(w: World, k: string, t: Task, ky: Kanary)
    requires Sane(w, k, t) && (t.RecordConfig? || t.RecordEndpoints? || t.RecordProxy? || t.RecordService?)
    ensures Sane(StoreKanary(Drop(w, k), ky), k, t)
  {
  }

  lemma CallRecord(reserved: Reservations, w: World, k: string, tick: Tick)
    requires CallReady(reserved, w, k, tick)
    requires var t := w.tasks[k]; t.RecordConfig? || t.RecordEndpoints? || t.RecordProxy? || t.RecordService?
    ensures Inv(reserved, ApplyCall(w, k, tick))
  {
    var w0, t, st := Drop(w, k), w.tasks[k], w.store;
    assert Sane(w, k, t);
    assert t.ky.name == k;
    DropKeepsInv(reserved, w, k);
    RecordShape(w, k, tick);
    hide Inv, Step, Sound, TaskSound;
    var (s, t1) := Step(st, t, tick);
    if s == st {
      Finish(reserved, w, k, t, s, w0, t1);
    } else {
      RecordIsCurrent(reserved, w, k);
      RecordedSound(reserved, w, k);
      var ky := Recorded(t);
      StoreKanaryKeepsInv(reserved, w0, ky);
      AfterStatusWrite(w, k, t, ky);
      LaterSane(w, k, t, ky);
      var w1 := StoreKanary(w0, ky);
      AfterRecordSane(w1, k, t, w1.store.kanaries[k], w1.store.configMaps);
      if t.RecordService? {
        ClearDeleting(reserved, w1, k);
        w1 := w1.(deleting := w1.deleting - {k});
      }
      hide AfterRecord, AfterCall, StoreKanary, Drop;
      Finish(reserved, w, k, t, s, w1, t1);
    }
  }

  lemma ServiceShape(w: World, k: string, tick: Tick)
    requires k in w.tasks && (w.tasks[k].RemoveService? || w.tasks[k].PublishService?)
    ensures var t := w.tasks[k];
            var (s, t1) := Step(w.store, t, tick);
            || (s == w.store && t1.Done?)
            || (&& t.RemoveService?
                && s == ServicesSet(w, w.store.services - {t.ky.status.destination.serviceName}, {}).store
                && (t1.Done? || t1 == PublishService(t.ky)))
            || (&& t.PublishService?
                && s == ServicesSet(w, w.store.services[t.ky.spec.destination := NewService(t.ky)], {}).store
                && (t1.Done? || t1 == RecordService(t.ky)))
  {
    var t := w.tasks[k];
    ServiceCallShape(tick.verdict, w, NewService(t.ky), t.ky.status.destination.serviceName);
    hide CreateService, ApiStore.DeleteService, Served, ServicesSet, NewService, ProxyName;
    assert NewService(t.ky).name == t.ky.spec.destination by { NewServiceName(t.ky); }
  }

  lemma NewServiceName(ky: Kanary)
    ensures NewService(ky).name == ky.spec.destination
  {
  }

  lemma ServiceCallShape(verdict: Verdict, w: World, svc: Service, name: string)
    ensures var a := Served(verdict, w.store, CreateService(w.store, svc));
            || (a.store == w.store && a.reply.None?)
            || a.store == ServicesSet(w, w.store.services[svc.name := svc], {}).store
    ensures var a := Served(verdict, w.store, ApiStore.DeleteService(w.store, name));
            || (a.store == w.store && a.reply.None?)
            || a.store == ServicesSet(w, w.store.services - {name}, {}).store
  {
  }

  lemma OwnServices(reserved: Reservations, w: World, k: string)
    requires Inv(reserved, w) && k in w.tasks && (w.tasks[k].RemoveService? || w.tasks[k].PublishService?)
    ensures var ky := w.tasks[k].ky;
            && ky in w.past && ky.name == k && ky.status.destination.proxyName != ""
            && ky.spec.destination in reserved && reserved[ky.spec.destination] == k
            && (w.tasks[k].RemoveService? ==>
                  ky.status.destination.serviceName in reserved && reserved[ky.status.destination.serviceName] == k)
  {
    assert Sane(w, k, w.tasks[k]);
    assert Sound(reserved, w.store.configMaps, w.store.deployments, w.tasks[k].ky);
  }

  lemma AfterServiceWrite(w: World, k: string, t: Task, services: map<string, Service>)
    requires t.RemoveService? || t.PublishService?
    ensures var deleting := if t.RemoveService? then w.deleting + {k} else w.deleting;
            var w1 := ServicesSet(Drop(w, k), services, deleting);
            && AfterCall(w, k, t, ServicesSet(w, services, {}).store) == w1.(tasks := w.tasks)
            && w1.tasks == w.tasks - {k} && w1.past == w.past && w1.store.services == services
  {
  }

  lemma AfterServiceSane(w1: World, k: string, ky: Kanary)
    requires ky in w1.past && ky.name == k && ky.status.destination.proxyName != ""
    ensures Sane(w1, k, PublishService(ky))
    ensures ky.spec.destination in w1.store.services ==> Sane(w1, k, RecordService(ky))
  {
  }

  lemma CallService(reserved: Reservations, w: World, k: string, tick: Tick)
    requires CallReady(reserved, w, k, tick) && (w.tasks[k].RemoveService? || w.tasks[k].PublishService?)
    ensures Inv(reserved, ApplyCall(w, k, tick))
  {
    var w0, t, st := Drop(w, k), w.tasks[k], w.store;
    OwnServices(reserved, w, k);
    ServiceShape(w, k, tick);
    DropKeepsInv(reserved, w, k);
    hide Inv, Step, TaskSound;
    var (s, t1) := Step(st, t, tick);
    if s == st {
      Finish(reserved, w, k, t, s, w0, t1);
    } else {
      var services := s.services;
      var deleting := if t.RemoveService? then w.deleting + {k} else w.deleting;
      if t.RemoveService? {
        ServiceDeleteKeepsInv(reserved, w0, t.ky.status.destination.serviceName, deleting);
      } else {
        ServicePutKeepsInv(reserved, w0, NewService(t.ky));
      }
      AfterServiceWrite(w, k, t, services);
      AfterServiceSane(ServicesSet(w0, services, deleting), k, t.ky);
      hide AfterCall;
      Finish(reserved, w, k, t, s, ServicesSet(w0, services, deleting), t1);
    }
  }

  /** The Endpoints object the lister shows for the next recorded service. */
  ghost function Seen(w: World, t: Task, tick: Tick): Option<Endpoints>
    requires t.AddRefs? && t.next < |t.ky.status.endpoints|
  {
    var cache := tick.cache.GetOr(w.store.endpoints);
    var service := t.ky.status.endpoints[t.next].serviceName;
    if service in cache then Some(cache[service]) else None
  }

  lemma AddRefsShape(w: World, k: string, tick: Tick)
    requires k in w.tasks && w.tasks[k].AddRefs? && w.tasks[k].next < |w.tasks[k].ky.status.endpoints|
    requires w.tasks[k].ky.name == k
    requires Seen(w, w.tasks[k], tick).Some? ==>
               Seen(w, w.tasks[k], tick).value.name == w.tasks[k].ky.status.endpoints[w.tasks[k].next].serviceName
    ensures var t := w.tasks[k];
            var (s, t1) := Step(w.store, t, tick);
            || (s == w.store && t1.Done?)
            || (&& Seen(w, t, tick).Some?
                && var seen := Seen(w, t, tick).value;
                && AddRef(seen.kanaryRef, k).Some?
                && seen.name in w.store.endpoints && w.store.endpoints[seen.name].version == seen.version
                && s == StoreEndpoints(w, seen.(kanaryRef := AddRef(seen.kanaryRef, k).value)).store
                && (t1.Done? || t1 == RefsFrom(t.ky, t.next + 1)))
  {
    var t := w.tasks[k];
    if Seen(w, t, tick).Some? && AddRef(Seen(w, t, tick).value.kanaryRef, k).Some? {
      var seen := Seen(w, t, tick).value;
      EndpointsUpdateShape(tick.verdict, w, seen.(kanaryRef := AddRef(seen.kanaryRef, k).value));
    }
    hide AddRef, RefsFrom, ApiStore.UpdateEndpoints, StoreEndpoints;
  }

  lemma EndpointsUpdateShape(verdict: Verdict, w: World, ep: Endpoints)
    ensures var a := Served(verdict, w.store, ApiStore.UpdateEndpoints(w.store, ep));
            || (a.store == w.store && a.reply.None?)
            || (&& ep.name in w.store.endpoints && w.store.endpoints[ep.name].version == ep.version
                && a.store == StoreEndpoints(w, ep).store)
  {
  }

  lemma SeenIsPast(reserved: Reservations, w: World, k: string, tick: Tick)
    requires CallReady(reserved, w, k, tick) && w.tasks[k].AddRefs?
    ensures w.tasks[k].next < |w.tasks[k].ky.status.endpoints| && Sane(w, k, w.tasks[k])
    ensures Seen(w, w.tasks[k], tick).Some? ==>
              var seen := Seen(w, w.tasks[k], tick).value;
              seen in w.pastEndpoints && seen.name == w.tasks[k].ky.status.endpoints[w.tasks[k].next].serviceName
  {
    assert Sane(w, k, w.tasks[k]);
  }

  /** The bookkeeping of an accepted reference. */
  lemma AfterRefWrite(w: World, k: string, t: Task, ep: Endpoints)
    requires t.AddRefs? && t.next < |t.ky.status.endpoints| && t.ky.status.endpoints[t.next].serviceName == ep.name
    ensures var w1 := EndpointsWritten(Drop(w, k), ep, w.holders + {(ep.name, k)});
            && AfterCall(w, k, t, StoreEndpoints(w, ep).store) == w1.(tasks := w.tasks)
            && w1.tasks == w.tasks - {k} && w1.past == w.past
  {
  }

  lemma NothingWritten(w: World, k: string, t: Task)
    ensures AfterCall(w, k, t, w.store) == Drop(w, k).(tasks := w.tasks)
  {
  }

  lemma CallAddRefs(reserved: Reservations, w: World, k: string, tick: Tick)
    requires CallReady(reserved, w, k, tick) && w.tasks[k].AddRefs?
    ensures Inv(reserved, ApplyCall(w, k, tick))
  {
    var w0, t, st := Drop(w, k), w.tasks[k], w.store;
    SeenIsPast(reserved, w, k, tick);
    assert t.ky.name == k && t.ky in w.past && t.ky.status.destination.configName != "";
    hide Inv, Step, AddRef, Seen, TaskSound, AfterCall, RefsFrom;
    AddRefsShape(w, k, tick);
    DropKeepsInv(reserved, w, k);
    var (s, t1) := Step(st, t, tick);
    if s == st {
      NothingWritten(w, k, t);
      Finish(reserved, w, k, t, s, w0, t1);
    } else {
      var seen := Seen(w, t, tick).value;
      var ep := seen.(kanaryRef := AddRef(seen.kanaryRef, k).value);
      AcceptedIsCurrent(w, reserved, seen);
      AddHolderKeepsInv(reserved, w0, seen, k);
      var w1 := EndpointsWritten(w0, ep, w0.holders + {(ep.name, k)});
      AfterRefWrite(w, k, t, ep);
      RefsFromSound(k, t.ky, t.next + 1, w1.past, w1.store.configMaps, w1.store.deployments, w1.store.services, w1.store.rev);
      NotRolling(t.ky, t.next + 1);
      hide EndpointsWritten, StoreEndpoints, Drop;
      Finish(reserved, w, k, t, s, w1, t1);
    }
  }

  lemma NotRolling(ky: Kanary, next: nat)
    ensures !RefsFrom(ky, next).ReadProxy? && !RefsFrom(ky, next).RollProxy?
  {
  }

  lemma CallKeepsInv(reserved: Reservations, w: World, k: string, tick: Tick)
    requires CallReady(reserved, w, k, tick)
    ensures Inv(reserved, ApplyCall(w, k, tick))
  {
    assert Sane(w, k, w.tasks[k]);
    hide Inv, Step, ApplyCall, CacheFromPast;
    match w.tasks[k]
    case WriteConfig(_, _, _) => CallWriteConfig(reserved, w, k, tick);
    case ReadProxy(_, _) => CallReadProxy(reserved, w, k, tick);
    case RollProxy(_, _, _) => CallRollProxy(reserved, w, k, tick);
    case CreateProxy(_) => CallCreateProxy(reserved, w, k, tick);
    case RemoveService(_) => CallService(reserved, w, k, tick);
    case PublishService(_) => CallService(reserved, w, k, tick);
    case AddRefs(_, _) => CallAddRefs(reserved, w, k, tick);
    case _ => CallRecord(reserved, w, k, tick);
  }

  // ---------- the environment ----------

  lemma UnrefShape(w: World, k: string, seen: Endpoints, verdict: Verdict)
    ensures var w1 := ApplyUnref(w, k, seen, verdict);
            || w1 == w
            || (&& DeleteRef(seen.kanaryRef, k).Deleted?
                && seen.name in w.store.endpoints && w.store.endpoints[seen.name].version == seen.version
                && w1 == EndpointsWritten(w, seen.(kanaryRef := DeleteRef(seen.kanaryRef, k).annotation),
                                          w.holders - {(seen.name, k)}))
  {
    hide DeleteRef;
  }

  lemma UnrefKeepsInv(reserved: Reservations, w: World, k: string, seen: Endpoints, verdict: Verdict)
    requires Inv(reserved, w) && seen in w.pastEndpoints
    ensures Inv(reserved, ApplyUnref(w, k, seen, verdict))
  {
    UnrefShape(w, k, seen, verdict);
    hide Inv, ApplyUnref, DeleteRef;
    if ApplyUnref(w, k, seen, verdict) != w {
      AcceptedIsCurrent(w, reserved, seen);
      RemoveHolderKeepsInv(reserved, w, seen, k);
    }
  }

  lemma PutEndpointsKeepsInv(reserved: Reservations, w: World, service: string, subsets: seq<EndpointSubset>)
    requires Inv(reserved, w)
    ensures Inv(reserved, StoreEndpoints(w, Endpoints(service, 0, subsets,
              if service in w.store.endpoints then w.store.endpoints[service].kanaryRef else Absent)))
  {
    var refs := if service in w.store.endpoints then w.store.endpoints[service].kanaryRef else Absent;
    EndpointsWriteKeepsInv(reserved, w, Endpoints(service, 0, subsets, refs), w.holders);
  }

  lemma EndpointsGone(endpoints: EndpointsCache, past: set<Endpoints>, rev: nat,
                      holders: set<(string, string)>, service: string)
    requires EndpointsHistory(endpoints, past, rev) && RefsSound(endpoints, holders)
    ensures EndpointsHistory(endpoints - {service}, past, rev + 1)
    ensures RefsSound(endpoints - {service}, set h | h in holders && h.0 != service)
  {
  }

  lemma RemoveEndpointsKeepsInv(reserved: Reservations, w: World, service: string)
    requires Inv(reserved, w)
    ensures Inv(reserved, w.(store := w.store.(rev := w.store.rev + 1, endpoints := w.store.endpoints - {service}),
                             holders := set h | h in w.holders && h.0 != service))
  {
    hide KanaryHistory, EndpointsHistory, PastSound, ServicesSound, TasksSound, ProxiesSound, WritesCovered, RefsSound;
    var s := w.store;
    LaterRevision(w, w.past, s.rev + 1);
    KanariesLater(s.kanaries, w.past, s.rev);
    EndpointsGone(s.endpoints, w.pastEndpoints, s.rev, w.holders, service);
  }

  lemma KanaryGone(reserved: Reservations, kanaries: map<string, Kanary>, past: set<Kanary>, rev: nat,
                   services: map<string, Service>, deleting: set<string>, k: string)
    requires KanaryHistory(kanaries, past, rev) && ServicesSound(reserved, kanaries, services, deleting)
    ensures KanaryHistory(kanaries - {k}, past, rev + 1) && ServicesSound(reserved, kanaries - {k}, services, deleting)
  {
  }

  lemma RemoveKanaryKeepsInv(reserved: Reservations, w: World, k: string)
    requires Inv(reserved, w)
    ensures Inv(reserved, w.(store := w.store.(rev := w.store.rev + 1, kanaries := w.store.kanaries - {k})))
  {
    hide KanaryHistory, EndpointsHistory, PastSound, ServicesSound, TasksSound, ProxiesSound, WritesCovered, RefsSound;
    var s := w.store;
    LaterRevision(w, w.past, s.rev + 1);
    EndpointsLater(s.endpoints, w.pastEndpoints, s.rev);
    KanaryGone(reserved, s.kanaries, w.past, s.rev, s.services, w.deleting, k);
  }

  lemma KanaryEventKeepsInv(reserved: Reservations, printer: WeightPrinter, w: World, e: Event)
    requires Inv(reserved, w) && Enabled(reserved, w, e) && (e.AddKanary? || e.EditSpec?)
    ensures Inv(reserved, Apply(printer, w, e))
  {
    var s := w.store;
    if e.AddKanary? {
      StoreKanaryKeepsInv(reserved, w, Kanary(e.k, 0, e.spec, BLANK_STATUS));
    } else {
      assert Sound(reserved, s.configMaps, s.deployments, s.kanaries[e.k]);
      StoreKanaryKeepsInv(reserved, w, s.kanaries[e.k].(spec := e.spec));
    }
    hide Inv, StoreKanary;
  }

  lemma StartKeepsInv(reserved: Reservations, printer: WeightPrinter, w: World, e: Event)
    requires Inv(reserved, w) && Enabled(reserved, w, e) && e.StartSync?
    ensures Inv(reserved, Apply(printer, w, e))
  {
    var t := Begin(printer, e.lookup, e.cache);
    if e.lookup.Found? {
      BeginSound(reserved, printer, w, e.k, e.lookup.ky, e.cache);
    }
    hide Inv, HasSlack, TaskSound, ExpectedOf, Render;
    SetTaskKeepsInv(reserved, w, e.k, t);
  }

  lemma EventKeepsInv(reserved: Reservations, printer: WeightPrinter, w: World, e: Event)
    requires Inv(reserved, w) && Enabled(reserved, w, e)
    ensures Inv(reserved, Apply(printer, w, e))
  {
    hide Inv, Begin, ApplyCall, ApplyUnref, StoreEndpoints, StoreKanary, CacheFromPast, SpecAllowed, SetTask;
    match e
    case StartSync(_, _, _) => StartKeepsInv(reserved, printer, w, e);
    case Call(k, tick) => CallKeepsInv(reserved, w, k, tick);
    case Crash(k) => DropKeepsInv(reserved, w, k);
    case AddKanary(_, _) => KanaryEventKeepsInv(reserved, printer, w, e);
    case EditSpec(_, _) => KanaryEventKeepsInv(reserved, printer, w, e);
    case RemoveKanary(k) => RemoveKanaryKeepsInv(reserved, w, k);
    case PutEndpoints(service, subsets) => PutEndpointsKeepsInv(reserved, w, service, subsets);
    case RemoveEndpoints(service) => RemoveEndpointsKeepsInv(reserved, w, service);
    case TouchDeployment(d) => TouchKeepsInv(reserved, w, d);
    case PutForeignService(svc) => ServicePutKeepsInv(reserved, w, svc);
    case RemoveForeignService(name) => ServiceDeleteKeepsInv(reserved, w, name, w.deleting);
    case Unref(k, seen, verdict) => UnrefKeepsInv(reserved, w, k, seen, verdict);
  }

  // ---------- every reachable state ----------

  lemma InitialInv(reserved: Reservations, w: World)
    requires Initial(reserved, w)
    ensures Inv(reserved, w)
  {
  }

  lemma {:induction false} AlwaysInv(reserved: Reservations, printer: WeightPrinter,
                                     states: seq<World>, events: seq<Event>, i: nat)
    requires FaultyRun(reserved, printer, states, events) && i < |states|
    ensures Inv(reserved, states[i])
    decreases i
  {
    hide Inv, Apply, Enabled, Initial;
    if i == 0 {
      InitialInv(reserved, states[0]);
    } else {
      AlwaysInv(reserved, printer, states, events, i - 1);
      var e := events[i - 1];
      assert Happens(reserved, printer, states[i - 1], e, states[i]);
      EventKeepsInv(reserved, printer, states[i - 1], e);
    }
  }

  lemma StatusSound(reserved: Reservations, w: World, k: string)
    requires Inv(reserved, w) && k in w.store.kanaries
    ensures Sound(reserved, w.store.configMaps, w.store.deployments, w.store.kanaries[k])
  {
  }

  /** The parts of a stored Kanary's status appear only in the order config,
      endpoints, proxy, service, whatever faults, stale reads and interleavings
      the run had. */
  lemma StatusIsStaged(reserved: Reservations, printer: WeightPrinter, states: seq<World>, events: seq<Event>,
                       i: nat, k: string)
    requires FaultyRun(reserved, printer, states, events) && i < |states| && k in states[i].store.kanaries
    ensures Staged(states[i].store.kanaries[k])
  {
    AlwaysInv(reserved, printer, states, events, i);
    StatusSound(reserved, states[i], k);
  }

  /** What a status records exists: the ConfigMap, the Deployment, and the Service
      unless a sync deleted it and none has completed the status write since. */
  lemma StatusIsBacked(reserved: Reservations, printer: WeightPrinter, states: seq<World>, events: seq<Event>,
                       i: nat, k: string)
    requires FaultyRun(reserved, printer, states, events) && i < |states| && k in states[i].store.kanaries
    ensures var s := states[i].store;
            var d := s.kanaries[k].status.destination;
            && (d.configName != "" ==> d.configName in s.configMaps)
            && (d.proxyName != "" ==> d.proxyName in s.deployments)
            && (d.serviceName != "" ==> d.serviceName in s.services || k in states[i].deleting)
  {
    AlwaysInv(reserved, printer, states, events, i);
    StatusSound(reserved, states[i], k);
  }

  /** Traffic sent to a recorded Service reaches the Kanary's own proxy, which
      mounts the Kanary's own, existing ConfigMap. */
  lemma TrafficReachesOwnProxy(reserved: Reservations, printer: WeightPrinter, states: seq<World>, events: seq<Event>,
                               i: nat, k: string)
    requires FaultyRun(reserved, printer, states, events) && i < |states|
    requires var s := states[i].store;
             k in s.kanaries && s.kanaries[k].status.destination.serviceName in s.services
             && s.kanaries[k].status.destination.serviceName != ""
    ensures var s := states[i].store;
            var d := s.kanaries[k].status.destination;
            && d.proxyName in s.deployments
            && s.services[d.serviceName].selector == s.deployments[d.proxyName].podLabel
            && s.deployments[d.proxyName].configVolume == d.configName
            && d.configName in s.configMaps
  {
    AlwaysInv(reserved, printer, states, events, i);
    var s := states[i].store;
    StatusSound(reserved, states[i], k);
    assert ProxySound(k, s.deployments[ProxyName(k)], s.configMaps, s.rolls, s.rev);
  }

  lemma RevisionNow(reserved: Reservations, u: World, k: string)
    requires Inv(reserved, u) && HasProxy(u.store.deployments, k)
    ensures var s := u.store;
            && s.deployments[ProxyName(k)].revision == Itoa(Wrap64(1 + Count(s.rolls, ProxyName(k))))
            && 1 + Count(s.rolls, ProxyName(k)) <= Count(s.configWrites, ConfigMapName(k))
  {
    var s := u.store;
    assert ProxySound(k, s.deployments[ProxyName(k)], s.configMaps, s.rolls, s.rev);
    assert HasConfigMap(s.configMaps, k);
  }

  /** The revision of a Kanary's Deployment counts its successful rolling updates,
      in the 64-bit arithmetic of the code, and every roll was preceded by a
      configuration write of its own besides the first. */
  lemma RevisionCountsRolls(reserved: Reservations, printer: WeightPrinter, states: seq<World>, events: seq<Event>,
                            i: nat, k: string)
    requires FaultyRun(reserved, printer, states, events) && i < |states|
    requires ProxyName(k) in states[i].store.deployments
    ensures var s := states[i].store;
            var rolls := Count(s.rolls, ProxyName(k));
            && Atoi(s.deployments[ProxyName(k)].revision) == Some(Wrap64(1 + rolls))
            && (rolls < MAX_INT64 ==> Atoi(s.deployments[ProxyName(k)].revision) == Some(1 + rolls))
            && 1 + rolls <= Count(s.configWrites, ConfigMapName(k))
  {
    hide Atoi, Itoa, Wrap64, Inv, FaultyRun, Count;
    AlwaysInv(reserved, printer, states, events, i);
    RevisionNow(reserved, states[i], k);
    AtoiItoa(Wrap64(1 + Count(states[i].store.rolls, ProxyName(k))));
  }

  /** A kanaryRef list has no duplicates and names exactly the Kanaries whose last
      successful operation on that object was an addition. */
  lemma ReferencesAreExact(reserved: Reservations, printer: WeightPrinter, states: seq<World>, events: seq<Event>,
                           i: nat, n: string)
    requires FaultyRun(reserved, printer, states, events) && i < |states| && n in states[i].store.endpoints
    ensures var refs := states[i].store.endpoints[n].kanaryRef;
            && !refs.Malformed? && NoDup(refs.Names())
            && forall k :: k in refs.Names() <==> (n, k) in states[i].holders
  {
    AlwaysInv(reserved, printer, states, events, i);
  }

  /** Nobody's reference is added, lost or removed by an operation of another
      Kanary: it changes only by its own sync's addition, its own deletion handler,
      or the removal of the Endpoints object. */
  lemma OnlyOwnersChangeReferences(reserved: Reservations, printer: WeightPrinter, states: seq<World>,
                                   events: seq<Event>, i: nat, n: string, k: string)
    requires FaultyRun(reserved, printer, states, events) && i < |events|
    requires n in states[i].store.endpoints && n in states[i + 1].store.endpoints
    requires k in states[i].store.endpoints[n].kanaryRef.Names()
             <==> k !in states[i + 1].store.endpoints[n].kanaryRef.Names()
    ensures if k in states[i].store.endpoints[n].kanaryRef.Names()
            then events[i].Unref? && events[i].k == k && events[i].seen.name == n
            else events[i].Call? && events[i].k == k && k in states[i].tasks && states[i].tasks[k].AddRefs?
  {
    hide Apply, Enabled, Inv, Initial;
    AlwaysInv(reserved, printer, states, events, i);
    AlwaysInv(reserved, printer, states, events, i + 1);
    var e := events[i];
    assert Happens(reserved, printer, states[i], e, states[i + 1]);
    HoldersAreNames(reserved, states[i], n, k);
    HoldersAreNames(reserved, states[i + 1], n, k);
    HoldersChange(printer, states[i], e, n, k);
    if e.RemoveEndpoints? {
      RemovedIsGone(printer, states[i], e);
    }
  }

  lemma HoldersAreNames(reserved: Reservations, w: World, n: string, k: string)
    requires Inv(reserved, w) && n in w.store.endpoints
    ensures k in w.store.endpoints[n].kanaryRef.Names() <==> (n, k) in w.holders
  {
  }

  lemma RemovedIsGone(printer: WeightPrinter, w: World, e: Event)
    requires e.RemoveEndpoints?
    ensures e.service !in Apply(printer, w, e).store.endpoints
  {
  }

  lemma HoldersChange(printer: WeightPrinter, w: World, e: Event, n: string, k: string)
    ensures (n, k) in w.holders && (n, k) !in Apply(printer, w, e).holders ==>
              (e.RemoveEndpoints? && e.service == n) || (e.Unref? && e.k == k && e.seen.name == n)
    ensures (n, k) !in w.holders && (n, k) in Apply(printer, w, e).holders ==>
              e.Call? && e.k == k && k in w.tasks && w.tasks[k].AddRefs?
  {
    hide Step, Begin, DeleteRef, ApiStore.UpdateEndpoints;
  }

  // ---------- a whole sync under faults ----------

  /** The calls of k's sync up to its end, with nothing in between. */
  ghost function Uninterrupted(w: World, k: string, script: seq<Tick>): World
    decreases if k in w.tasks then Rank(w.tasks[k]) + 1 else 0
  {
    if k !in w.tasks then w else Uninterrupted(ApplyCall(w, k, HeadTick(script)), k, TailTicks(script))
  }

  ghost predicate ScriptFromPast(script: seq<Tick>, past: set<Endpoints>) {
    forall i :: 0 <= i < |script| && script[i].cache.Some? ==> CacheFromPast(script[i].cache.value, past)
  }

  /** The controller's sync, run to its end under any faults and stale caches, is
      such a sequence of calls, and so keeps the invariant of the faulty runs. */
  lemma {:induction false} SyncUnderFaults(reserved: Reservations, w: World, k: string, script: seq<Tick>)
    requires Inv(reserved, w) && k in w.tasks && ScriptFromPast(script, w.pastEndpoints)
    ensures var u := Uninterrupted(w, k, script);
            u.store == Run(w.store, w.tasks[k], script).0 && Inv(reserved, u)
    decreases Rank(w.tasks[k])
  {
    hide Inv, ApplyCall, Step, ScriptFromPast, CacheFromPast;
    var tick := HeadTick(script);
    var w1 := ApplyCall(w, k, tick);
    TaskInProgress(reserved, w, k);
    CallStore(w, k, tick);
    NextTick(script, w.pastEndpoints, w1.pastEndpoints);
    CallKeepsInv(reserved, w, k, tick);
    if k !in w1.tasks {
    } else {
      SyncUnderFaults(reserved, w1, k, TailTicks(script));
    }
  }

  lemma TaskInProgress(reserved: Reservations, w: World, k: string)
    requires Inv(reserved, w) && k in w.tasks
    ensures !w.tasks[k].Done?
  {
    assert Sane(w, k, w.tasks[k]);
  }

  lemma NextTick(script: seq<Tick>, past: set<Endpoints>, later: set<Endpoints>)
    requires ScriptFromPast(script, past) && past <= later
    ensures ScriptFromPast(TailTicks(script), later)
    ensures HeadTick(script).cache.Some? ==> CacheFromPast(HeadTick(script).cache.value, past)
  {
    var tail := TailTicks(script);
    forall i | 0 <= i < |tail| && tail[i].cache.Some? ensures CacheFromPast(tail[i].cache.value, later) {
      assert tail[i] == script[i + 1];
    }
  }

  lemma CallStore(w: World, k: string, tick: Tick)
    requires k in w.tasks && !w.tasks[k].Done?
    ensures var (s, t) := Step(w.store, w.tasks[k], tick);
            var w1 := ApplyCall(w, k, tick);
            && w1.store == s && w.pastEndpoints <= w1.pastEndpoints
            && (k in w1.tasks <==> !t.Done?) && (!t.Done? ==> w1.tasks[k] == t)
  {
    hide Step;
  }
}
