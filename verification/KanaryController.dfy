/** The controller's own code (pkg/controller/controller.go), against an API server
    whose faults and stale caches are scripted. */
module KanaryController {
  import opened KanaryTypes
  import opened Decimal
  import opened EndpointDiff
  import opened ExpectedStatus
  import opened HAProxy
  import opened ConfigText
  import opened BackRefs
  import opened SyncProtocol
  import opened SyncErrors
  import ApiStore

  /** Each method takes the next tick of the script and answers as the API does. */
  class ApiServer {
    var store: ApiStore.Store
    var script: seq<Tick>

    constructor (store: ApiStore.Store, script: seq<Tick>)
      ensures this.store == store && this.script == script
    {
      this.store := store;
      this.script := script;
    }

    /** The Endpoints lister at the time of the next call. */
    function EpLister(): EndpointsCache
      reads this
    {
      HeadTick(script).cache.GetOr(store.endpoints)
    }

    method UpdateKanary(ky: Kanary) returns (reply: Option<Kanary>)
      modifies this
      ensures script == TailTicks(old(script))
      ensures ApiStore.Answer(store, reply)
           == Served(HeadTick(old(script)).verdict, old(store), ApiStore.UpdateKanary(old(store), ky))
    {
      var a := Served(HeadTick(script).verdict, store, ApiStore.UpdateKanary(store, ky));
      store, script, reply := a.store, TailTicks(script), a.reply;
    }

    method UpdateEndpoints(ep: Endpoints) returns (reply: Option<Endpoints>)
      modifies this
      ensures script == TailTicks(old(script))
      ensures ApiStore.Answer(store, reply)
           == Served(HeadTick(old(script)).verdict, old(store), ApiStore.UpdateEndpoints(old(store), ep))
    {
      var a := Served(HeadTick(script).verdict, store, ApiStore.UpdateEndpoints(store, ep));
      store, script, reply := a.store, TailTicks(script), a.reply;
    }

    method CreateConfigMap(cm: ConfigMap) returns (reply: Option<ConfigMap>)
      modifies this
      ensures script == TailTicks(old(script))
      ensures ApiStore.Answer(store, reply)
           == Served(HeadTick(old(script)).verdict, old(store), ApiStore.CreateConfigMap(old(store), cm))
    {
      var a := Served(HeadTick(script).verdict, store, ApiStore.CreateConfigMap(store, cm));
      store, script, reply := a.store, TailTicks(script), a.reply;
    }

    method UpdateConfigMap(cm: ConfigMap) returns (reply: Option<ConfigMap>)
      modifies this
      ensures script == TailTicks(old(script))
      ensures ApiStore.Answer(store, reply)
           == Served(HeadTick(old(script)).verdict, old(store), ApiStore.UpdateConfigMap(old(store), cm))
    {
      var a := Served(HeadTick(script).verdict, store, ApiStore.UpdateConfigMap(store, cm));
      store, script, reply := a.store, TailTicks(script), a.reply;
    }

    method GetDeployment(name: string) returns (reply: Option<Deployment>)
      modifies this
      ensures script == TailTicks(old(script))
      ensures ApiStore.Answer(store, reply)
           == Served(HeadTick(old(script)).verdict, old(store), ApiStore.GetDeployment(old(store), name))
    {
      var a := Served(HeadTick(script).verdict, store, ApiStore.GetDeployment(store, name));
      store, script, reply := a.store, TailTicks(script), a.reply;
    }

    method CreateDeployment(d: Deployment) returns (reply: Option<Deployment>)
      modifies this
      ensures script == TailTicks(old(script))
      ensures ApiStore.Answer(store, reply)
           == Served(HeadTick(old(script)).verdict, old(store), ApiStore.CreateDeployment(old(store), d))
    {
      var a := Served(HeadTick(script).verdict, store, ApiStore.CreateDeployment(store, d));
      store, script, reply := a.store, TailTicks(script), a.reply;
    }

    method UpdateDeployment(d: Deployment) returns (reply: Option<Deployment>)
      modifies this
      ensures script == TailTicks(old(script))
      ensures ApiStore.Answer(store, reply)
           == Served(HeadTick(old(script)).verdict, old(store), ApiStore.UpdateDeployment(old(store), d))
    {
      var a := Served(HeadTick(script).verdict, store, ApiStore.UpdateDeployment(store, d));
      store, script, reply := a.store, TailTicks(script), a.reply;
    }

    method CreateService(svc: Service) returns (reply: Option<Service>)
      modifies this
      ensures script == TailTicks(old(script))
      ensures ApiStore.Answer(store, reply)
           == Served(HeadTick(old(script)).verdict, old(store), ApiStore.CreateService(old(store), svc))
    {
      var a := Served(HeadTick(script).verdict, store, ApiStore.CreateService(store, svc));
      store, script, reply := a.store, TailTicks(script), a.reply;
    }

    method DeleteService(name: string) returns (reply: Option<()>)
      modifies this
      ensures script == TailTicks(old(script))
      ensures ApiStore.Answer(store, reply)
           == Served(HeadTick(old(script)).verdict, old(store), ApiStore.DeleteService(old(store), name))
    {
      var a := Served(HeadTick(script).verdict, store, ApiStore.DeleteService(store, name));
      store, script, reply := a.store, TailTicks(script), a.reply;
    }
  }

  class Controller {
    const api: ApiServer
    const printer: WeightPrinter

    constructor (api: ApiServer, printer: WeightPrinter)
      ensures this.api == api && this.printer == printer
    {
      this.api := api;
      this.printer := printer;
    }

    /** Either the sync is over with the given result, or it goes on as `t`; both
        are measured against the run that started in (s, t0, script). */
    ghost predicate Continues(s: ApiStore.Store, t0: Task, script: seq<Tick>, over: bool, t: Task)
      reads api
    {
      && (over ==> t.Done?)
      && Run(s, t0, script) == Run(api.store, t, api.script)
    }

    method PerformRollingUpdate(ky: Kanary, ghost expected: seq<KanaryEndpointList>) returns (failed: bool)
      modifies api
      ensures Continues(old(api.store), ReadProxy(ky, expected), old(api.script), failed,
                        if failed then Done(false) else RecordConfig(ky, expected))
    {
      hide Wrap64, Itoa, Atoi;
      var deploy := api.GetDeployment(ky.status.destination.proxyName);
      if deploy.None? {
        return true;
      }
      assert Continues(old(api.store), ReadProxy(ky, expected), old(api.script), false,
                       RollProxy(ky, expected, deploy.value));
      var parsed := Atoi(deploy.value.revision);
      var revision := 0;
      if parsed.Some? {
        revision := parsed.value;
      }
      var deployCopy := deploy.value.(revision := Itoa(Wrap64(revision + 1)));
      assert deployCopy == Rolled(deploy.value);
      var reply := api.UpdateDeployment(deployCopy);
      return reply.None?;
    }

    /** Create the ConfigMap, or replace it and roll the proxy. */
    method PublishConfig(ky: Kanary, expected: seq<KanaryEndpointList>, config: string) returns (over: bool)
      modifies api
      ensures Continues(old(api.store), WriteConfig(ky, expected, config), old(api.script), over,
                        if over then Done(false) else RecordConfig(ky, expected))
    {
      if ky.status.destination.configName == "" {
        var cm := api.CreateConfigMap(NewConfigMap(ky, config));
        return cm.None?;
      }
      var cm := api.UpdateConfigMap(NewConfigMap(ky, config));
      if cm.None? {
        return true;
      }
      over := PerformRollingUpdate(ky, expected);
    }

    /** Record the ConfigMap's name, then the endpoint status. */
    method RecordStatus(ky0: Kanary, expected: seq<KanaryEndpointList>) returns (over: bool, ky: Kanary)
      modifies api
      ensures Continues(old(api.store), RecordConfig(ky0, expected), old(api.script), over,
                        if over then Done(false) else RefsFrom(ky, 0))
    {
      ky := ky0;
      var recorded := api.UpdateKanary(ky.WithConfigName(ConfigMapName(ky.name)));
      if recorded.None? {
        return true, ky;
      }
      ky := recorded.value;
      recorded := api.UpdateKanary(ky.WithEndpoints(expected));
      if recorded.None? {
        return true, ky;
      }
      return false, recorded.value;
    }

    /** Add the Kanary to the kanaryRef list of every recorded service. */
    method AddBackRefs(ky: Kanary) returns (over: bool)
      modifies api
      ensures Continues(old(api.store), RefsFrom(ky, 0), old(api.script), over,
                        if over then Done(false) else AfterConfig(ky))
    {
      for i := 0 to |ky.status.endpoints|
        invariant Continues(old(api.store), RefsFrom(ky, 0), old(api.script), false, RefsFrom(ky, i))
      {
        var lister := api.EpLister();
        var service := ky.status.endpoints[i].serviceName;
        assert RefsFrom(ky, i) == AddRefs(ky, i);
        if service !in lister {
          assert Run(api.store, AddRefs(ky, i), api.script) == (api.store, false);
          return true;
        }
        var newEp := AddKanaryRefInEp(lister[service], ky.name);
        if newEp.None? {
          assert Run(api.store, AddRefs(ky, i), api.script) == (api.store, false);
          return true;
        }
        var reply := api.UpdateEndpoints(newEp.value);
        if reply.None? {
          return true;
        }
      }
      return false;
    }

    /** Publish the configuration, record it, add the back-references. */
    method SyncConfig(ky0: Kanary, expected: seq<KanaryEndpointList>, config: string)
      returns (over: bool, ky: Kanary)
      modifies api
      ensures Continues(old(api.store), WriteConfig(ky0, expected, config), old(api.script), over,
                        if over then Done(false) else AfterConfig(ky))
    {
      hide Run, Step;
      ky := ky0;
      over := PublishConfig(ky, expected, config);
      if over {
        return;
      }
      over, ky := RecordStatus(ky, expected);
      if over {
        return;
      }
      over := AddBackRefs(ky);
    }

    /** Create the proxy once. */
    method SyncProxy(ky0: Kanary) returns (over: bool, ky: Kanary)
      modifies api
      ensures Continues(old(api.store), AfterConfig(ky0), old(api.script), over,
                        if over then Done(false) else AfterProxy(ky))
    {
      ky := ky0;
      if ky.HAProxyCreationNeeded() {
        var deployment := api.CreateDeployment(NewDeployment(ky));
        if deployment.None? {
          return true, ky;
        }
        var recorded := api.UpdateKanary(ky.WithProxyName(deployment.value.name));
        if recorded.None? {
          return true, ky;
        }
        ky := recorded.value;
      }
      return false, ky;
    }

    /** Create the destination service, or replace it. Only the refused record of it is
        an error. */
    method SyncService(ky: Kanary) returns (err: bool)
      modifies api
      ensures Continues(old(api.store), AfterProxy(ky), old(api.script), true, Done(err))
      ensures err <==> ServiceUnrecorded(old(api.store), AfterProxy(ky), old(api.script))
    {
      ServicePartErrs(api.store, ky, api.script);
      hide ServiceUnrecorded;
      if ky.spec.destination != ky.status.destination.serviceName {
        if ky.status.destination.serviceName != "" {
          var deleted := api.DeleteService(ky.status.destination.serviceName);
          if deleted.None? {
            return false;
          }
        }
        var service := api.CreateService(NewService(ky));
        if service.None? {
          return false;
        }
        assert Continues(old(api.store), AfterProxy(ky), old(api.script), false, RecordService(ky));
        var recorded := api.UpdateKanary(ky.WithServiceName(service.value.name));
        if recorded.None? {
          return true;
        }
      }
      return false;
    }

    /** The whole sync does exactly what the protocol's run does, whatever faults
        and stale caches its calls meet. It returns an error if and only if the lookup
        failed or the last status write was refused. */
    method SyncKanary(lookup: Lookup, cache: EndpointsCache) returns (err: bool)
      modifies api
      ensures (api.store, err) == Run(old(api.store), Begin(printer, lookup, cache), old(api.script))
      ensures err <==> lookup.LookupFailed?
                       || ServiceUnrecorded(old(api.store), Begin(printer, lookup, cache), old(api.script))
    {
      SyncErrs(printer, api.store, lookup, cache, api.script);
      hide ServiceUnrecorded;
      if !lookup.Found? {
        return lookup.LookupFailed?;
      }
      var ky := lookup.ky;
      var expected := BuildExpectedEndpointStatus(ky, cache);
      if expected.None? {
        return false;
      }
      var same := DeepEqualEndpointStatusList(expected.value, ky.status.endpoints);
      var over := false;
      if !same {
        var endpoints := NewHAProxyController(expected.value);
        var config := GenerateConfig(printer, endpoints);
        over, ky := SyncConfig(ky, expected.value, config);
        if over {
          return false;
        }
      }
      over, ky := SyncProxy(ky);
      if over {
        return false;
      }
      err := SyncService(ky);
    }

    /** An Endpoints update wakes the longest prefix of live names in its old
        kanaryRef list; a name that is not live stops the loop. */
    method UpdateEndpoint(ep: Endpoints, kanaryLister: set<string>) returns (enqueued: seq<string>)
      ensures enqueued == LivePrefix(ep.kanaryRef.Names(), kanaryLister)
    {
      enqueued := [];
      if !ep.kanaryRef.Refs? {
        return;
      }
      var kyRef := ep.kanaryRef.names;
      assert kyRef[0..] == kyRef;
      for i := 0 to |kyRef|
        invariant enqueued + LivePrefix(kyRef[i..], kanaryLister) == LivePrefix(kyRef, kanaryLister)
      {
        assert kyRef[i..][1..] == kyRef[i + 1..];
        if kyRef[i] !in kanaryLister {
          return;
        }
        enqueued := enqueued + [kyRef[i]];
      }
    }

    /** The deletion handler: one read-modify-write per recorded service, ending at
        the first error. `panicked` is Go's slice bounds panic. */
    method DeleteKyRefInEp(ky: Kanary) returns (panicked: bool, err: bool)
      modifies api
      ensures (api.store, panicked, err) == RunDeletion(old(api.store), ky, 0, old(api.script))
    {
      for i := 0 to |ky.status.endpoints|
        invariant RunDeletion(old(api.store), ky, 0, old(api.script)) == RunDeletion(api.store, ky, i, api.script)
      {
        var lister := api.EpLister();
        var service := ky.status.endpoints[i].serviceName;
        if service !in lister {
          return false, true;
        }
        var edited := DeleteKanaryRef(lister[service].kanaryRef, ky.name);
        if edited.DecodeError? {
          return false, true;
        }
        if edited.Panics? {
          return true, false;
        }
        var reply := api.UpdateEndpoints(lister[service].(kanaryRef := edited.annotation));
        if reply.None? {
          return false, true;
        }
      }
      return false, false;
    }
  }

  function LivePrefix(names: seq<string>, live: set<string>): seq<string> {
    if names == [] || names[0] !in live then [] else [names[0]] + LivePrefix(names[1..], live)
  }

  /** The handler's effect, call by call. */
  function RunDeletion(s: ApiStore.Store, ky: Kanary, next: nat, script: seq<Tick>): (ApiStore.Store, bool, bool)
    decreases |ky.status.endpoints| - next
  {
    if next >= |ky.status.endpoints| then (s, false, false)
    else
      var tick := HeadTick(script);
      var cache := tick.cache.GetOr(s.endpoints);
      var service := ky.status.endpoints[next].serviceName;
      if service !in cache then (s, false, true)
      else
        match DeleteRef(cache[service].kanaryRef, ky.name)
        case DecodeError => (s, false, true)
        case Panics => (s, true, false)
        case Deleted(refs) =>
          var a := Served(tick.verdict, s, ApiStore.UpdateEndpoints(s, cache[service].(kanaryRef := refs)));
          if a.reply.None? then (a.store, false, true)
          else RunDeletion(a.store, ky, next + 1, TailTicks(script))
  }

  /** The prefix is the longest one of live names. */
  lemma {:induction false} LivePrefixIsLongest(names: seq<string>, live: set<string>)
    ensures var p := LivePrefix(names, live);
            && p <= names
            && (forall n :: n in p ==> n in live)
            && (|p| < |names| ==> names[|p|] !in live)
  {
    if names == [] || names[0] !in live {
    } else {
      LivePrefixIsLongest(names[1..], live);
    }
  }

  /** k comes up in the list before any name that is not live. */
  ghost predicate ComesUp(names: seq<string>, live: set<string>, k: string) {
    exists i :: 0 <= i < |names| && names[i] == k && forall j :: 0 <= j <= i ==> names[j] in live
  }

  /** A name is woken exactly when it and every name before it are live. */
  lemma {:induction false} WokenExactly(names: seq<string>, live: set<string>, k: string)
    ensures k in LivePrefix(names, live) <==> ComesUp(names, live, k)
  {
    LivePrefixIsLongest(names, live);
    var p := LivePrefix(names, live);
    if ComesUp(names, live, k) {
      var i :| 0 <= i < |names| && names[i] == k && forall j :: 0 <= j <= i ==> names[j] in live;
      assert i < |p|;
      assert p[i] == names[i];
    }
    if k in p {
      var i :| 0 <= i < |p| && p[i] == k;
      forall j | 0 <= j <= i ensures names[j] in live {
        assert names[j] == p[j] && p[j] in p;
      }
    }
  }
}
