/** Every run of the controller under faults: syncs of different Kanaries
    interleave call by call, calls are refused or lose their reply, workers crash,
    listers are arbitrarily stale, and the environment edits specs, replaces
    Kanaries and churns Endpoints at any time. */
module FaultyRuns {
  import opened KanaryTypes
  import opened ExpectedStatus
  import opened ConfigText
  import opened BackRefs
  import opened ApiStore
  import opened SyncProtocol

  /** tasks: the in-flight syncs, at most one per Kanary.
      past, pastEndpoints: every object version ever stored, which is what a lister may show.
      deleting: the Kanaries of which a sync deleted the recorded Service and no
        sync has completed a service status write since.
      holders: the (service, Kanary) pairs whose last successful reference
        operation on the current Endpoints object was an addition. */
  datatype World = World(
    store: Store,
    tasks: map<string, Task>,
    past: set<Kanary>,
    pastEndpoints: set<Endpoints>,
    deleting: set<string>,
    holders: set<(string, string)>)

  datatype Event =
    | StartSync(k: string, lookup: Lookup, cache: EndpointsCache)
    | Call(k: string, tick: Tick)
    | Crash(k: string)
    | AddKanary(k: string, spec: KanarySpec)
    | EditSpec(k: string, spec: KanarySpec)
    | RemoveKanary(k: string)
    | PutEndpoints(service: string, subsets: seq<EndpointSubset>)
    | RemoveEndpoints(service: string)
    | TouchDeployment(d: string)
    | PutForeignService(svc: Service)
    | RemoveForeignService(name: string)
    | Unref(k: string, seen: Endpoints, verdict: Verdict)

  ghost predicate CacheFromPast(cache: EndpointsCache, past: set<Endpoints>) {
    forall n :: n in cache ==> cache[n] in past && cache[n].name == n
  }

  ghost predicate Enabled(reserved: Reservations, w: World, e: Event) {
    match e
    case StartSync(k, lookup, _) => k !in w.tasks && (lookup.Found? ==> lookup.ky in w.past && lookup.ky.name == k)
    case Call(k, tick) => k in w.tasks && (tick.cache.Some? ==> CacheFromPast(tick.cache.value, w.pastEndpoints))
    case Crash(k) => k in w.tasks
    case AddKanary(k, spec) => k !in w.store.kanaries && SpecAllowed(reserved, k, spec)
    case EditSpec(k, spec) => k in w.store.kanaries && SpecAllowed(reserved, k, spec)
    case RemoveKanary(k) => k in w.store.kanaries
    case PutEndpoints(_, _) => true
    case RemoveEndpoints(service) => service in w.store.endpoints
    case TouchDeployment(d) => d in w.store.deployments
    case PutForeignService(svc) => svc.name !in reserved
    case RemoveForeignService(name) => name !in reserved
    case Unref(_, seen, _) => seen in w.pastEndpoints
  }

  // ---------- what an event does ----------

  ghost function Drop(w: World, k: string): World {
    w.(tasks := w.tasks - {k})
  }

  ghost function SetTask(w: World, k: string, t: Task): World {
    if t.Done? then Drop(w, k) else w.(tasks := w.tasks[k := t])
  }

  ghost function StoreKanary(w: World, ky: Kanary): World {
    var stored := ky.(version := w.store.rev + 1);
    w.(store := w.store.(rev := w.store.rev + 1, kanaries := w.store.kanaries[ky.name := stored]),
       past := w.past + {stored})
  }

  ghost function StoreEndpoints(w: World, ep: Endpoints): World {
    var stored := ep.(version := w.store.rev + 1);
    w.(store := w.store.(rev := w.store.rev + 1, endpoints := w.store.endpoints[ep.name := stored]),
       pastEndpoints := w.pastEndpoints + {stored})
  }

  /** The bookkeeping of a call of k's sync that left the store as s. */
  ghost function AfterCall(w: World, k: string, t: Task, s: Store): World {
    if s.rev == w.store.rev then w.(store := s)
    else if (t.RecordConfig? || t.RecordEndpoints? || t.RecordProxy?) && k in s.kanaries then
      w.(store := s, past := w.past + {s.kanaries[k]})
    else if t.RecordService? && k in s.kanaries then
      w.(store := s, past := w.past + {s.kanaries[k]}, deleting := w.deleting - {k})
    else if t.RemoveService? then
      w.(store := s, deleting := w.deleting + {k})
    else if t.AddRefs? && t.next < |t.ky.status.endpoints| && t.ky.status.endpoints[t.next].serviceName in s.endpoints then
      var service := t.ky.status.endpoints[t.next].serviceName;
      w.(store := s, pastEndpoints := w.pastEndpoints + {s.endpoints[service]}, holders := w.holders + {(service, k)})
    else w.(store := s)
  }

  ghost function ApplyCall(w: World, k: string, tick: Tick): World
    requires k in w.tasks
  {
    if w.tasks[k].Done? then Drop(w, k)
    else
      var (s, t) := Step(w.store, w.tasks[k], tick);
      SetTask(AfterCall(w, k, w.tasks[k], s), k, t)
  }

  ghost function ApplyUnref(w: World, k: string, seen: Endpoints, verdict: Verdict): World {
    match DeleteRef(seen.kanaryRef, k)
    case Deleted(refs) =>
      var s := Served(verdict, w.store, ApiStore.UpdateEndpoints(w.store, seen.(kanaryRef := refs))).store;
      if s.rev == w.store.rev || seen.name !in s.endpoints then w
      else w.(store := s, pastEndpoints := w.pastEndpoints + {s.endpoints[seen.name]},
              holders := w.holders - {(seen.name, k)})
    case _ => w
  }

  ghost function Apply(printer: WeightPrinter, w: World, e: Event): World {
    var s := w.store;
    match e
    case StartSync(k, lookup, cache) => SetTask(w, k, Begin(printer, lookup, cache))
    case Call(k, tick) => if k in w.tasks then ApplyCall(w, k, tick) else w
    case Crash(k) => Drop(w, k)
    case AddKanary(k, spec) => StoreKanary(w, Kanary(k, 0, spec, BLANK_STATUS))
    case EditSpec(k, spec) => if k in s.kanaries then StoreKanary(w, s.kanaries[k].(spec := spec)) else w
    case RemoveKanary(k) => w.(store := s.(rev := s.rev + 1, kanaries := s.kanaries - {k}))
    case PutEndpoints(service, subsets) =>
      StoreEndpoints(w, Endpoints(service, 0, subsets,
                                  if service in s.endpoints then s.endpoints[service].kanaryRef else Absent))
    case RemoveEndpoints(service) =>
      w.(store := s.(rev := s.rev + 1, endpoints := s.endpoints - {service}),
         holders := set h | h in w.holders && h.0 != service)
    case TouchDeployment(d) =>
      if d in s.deployments
      then w.(store := s.(rev := s.rev + 1, deployments := s.deployments[d := s.deployments[d].(version := s.rev + 1)]))
      else w
    case PutForeignService(svc) => w.(store := s.(rev := s.rev + 1, services := s.services[svc.name := svc]))
    case RemoveForeignService(name) => w.(store := s.(rev := s.rev + 1, services := s.services - {name}))
    case Unref(k, seen, verdict) => ApplyUnref(w, k, seen, verdict)
  }

  // ---------- runs ----------

  /** Before the controller runs for the first time: no Kanary exists and nothing has a
      name that Kanaries derive or reserve, and no kanaryRef has been written. All else
      may exist. */
  ghost predicate Initial(reserved: Reservations, w: World) {
    var s := w.store;
    && s.kanaries == map[] && "" !in s.deployments
    && (forall k: string :: ConfigMapName(k) !in s.configMaps && Count(s.configWrites, ConfigMapName(k)) == 0)
    && (forall k: string :: ProxyName(k) !in s.deployments && Count(s.rolls, ProxyName(k)) == 0)
    && w.tasks == map[] && w.past == {} && w.deleting == {} && w.holders == {}
    && (forall n :: n in s.services ==> n !in reserved)
    && (forall n :: n in s.endpoints ==> s.endpoints[n].name == n && s.endpoints[n] in w.pastEndpoints
                                         && s.endpoints[n].kanaryRef == Absent)
    && (forall p :: p in w.pastEndpoints ==> p.version <= s.rev)
    && (forall p, q :: p in w.pastEndpoints && q in w.pastEndpoints && p.version == q.version ==> p == q)
  }

  ghost predicate Happens(reserved: Reservations, printer: WeightPrinter, w: World, e: Event, next: World) {
    Enabled(reserved, w, e) && next == Apply(printer, w, e)
  }

  /** The states a run goes through, from an initial one, and its events. */
  ghost predicate FaultyRun(reserved: Reservations, printer: WeightPrinter, states: seq<World>, events: seq<Event>) {
    && |states| == |events| + 1
    && Initial(reserved, states[0])
    && forall i {:trigger events[i]} :: 0 <= i < |events| ==>
         Happens(reserved, printer, states[i], events[i], states[i + 1])
  }
}
