/** One sync of a Kanary as a resumable sequence of API calls
    (pkg/controller/controller.go, syncKanary).

    A Task says which call comes next and carries the sync's local Kanary. Every
    step makes one call, so a run can be faulted, interleaved or abandoned between
    any two calls. */
module SyncProtocol {
  import opened KanaryTypes
  import opened Decimal
  import opened EndpointDiff
  import opened ExpectedStatus
  import opened HAProxy
  import opened Float32
  import opened ConfigText
  import opened BackRefs
  import opened ApiStore

  // ---------- the environment of a call ----------

  /** Refused calls fail without effect; a ReplyLost call takes effect and the
      controller still sees an error. */
  datatype Verdict = Honoured | Refused | ReplyLost

  /** What one call meets. `cache` is what the Endpoints lister holds at that
      moment, None meaning that it is up to date. */
  datatype Tick = Tick(verdict: Verdict, cache: Option<EndpointsCache>)

  const CALM := Tick(Honoured, None)

  function Served<T>(verdict: Verdict, s: Store, a: Answer<T>): Answer<T> {
    match verdict
    case Honoured => a
    case Refused => Answer(s, None)
    case ReplyLost => Answer(a.store, None)
  }

  /** The answer of the Kanary lister; a lister may also fail outright. */
  datatype Lookup = Found(ky: Kanary) | NotFound | LookupFailed

  // ---------- the objects a sync writes ----------

  function NewConfigMap(ky: Kanary, config: string): ConfigMap {
    ConfigMap(ConfigMapName(ky.name), config)
  }

  function NewDeployment(ky: Kanary): Deployment {
    Deployment(ProxyName(ky.name), 0, ky.status.destination.configName, ProxyName(ky.name), "1")
  }

  function NewService(ky: Kanary): Service {
    Service(ky.spec.destination, ProxyName(ky.name))
  }

  /** The deployment copy of performRollingUpdate: an unreadable revision counts as 0. */
  function Rolled(d: Deployment): Deployment {
    d.(revision := Itoa(Wrap64(Atoi(d.revision).GetOr(0) + 1)))
  }

  lemma RolledName(d: Deployment)
    ensures Rolled(d).name == d.name && Rolled(d).version == d.version
    ensures Rolled(d).podLabel == d.podLabel && Rolled(d).configVolume == d.configVolume
  {
  }

  /** Rolling a Deployment whose revision counts n counts n + 1. */
  lemma RolledRevision(d: Deployment, n: int)
    requires d.revision == Itoa(Wrap64(n))
    ensures Rolled(d).revision == Itoa(Wrap64(n + 1)) && Rolled(d) == d.(revision := Rolled(d).revision)
  {
    AtoiItoa(Wrap64(n));
    WrapSuccessor(n);
    hide Atoi, Itoa, Wrap64;
  }

  /** A revision that is no number counts as 0. */
  lemma UnreadableRevision(d: Deployment)
    requires Atoi(d.revision).None?
    ensures Rolled(d).revision == "1"
  {
    FirstRevision();
  }

  lemma FirstRevision()
    ensures Itoa(Wrap64(1)) == "1"
  {
  }

  // ---------- the steps ----------

  datatype Task =
    | Done(err: bool)
    | WriteConfig(ky: Kanary, expected: seq<KanaryEndpointList>, config: string)
    | ReadProxy(ky: Kanary, expected: seq<KanaryEndpointList>)
    | RollProxy(ky: Kanary, expected: seq<KanaryEndpointList>, deployment: Deployment)
    | RecordConfig(ky: Kanary, expected: seq<KanaryEndpointList>)
    | RecordEndpoints(ky: Kanary, expected: seq<KanaryEndpointList>)
    | AddRefs(ky: Kanary, next: nat)
    | CreateProxy(ky: Kanary)
    | RecordProxy(ky: Kanary)
    | RemoveService(ky: Kanary)
    | PublishService(ky: Kanary)
    | RecordService(ky: Kanary)

  /** The number of calls a sync may still make. */
  function Rank(t: Task): nat {
    match t
    case Done(_) => 0
    case RecordService(_) => 1
    case PublishService(_) => 2
    case RemoveService(_) => 3
    case RecordProxy(_) => 4
    case CreateProxy(_) => 5
    case AddRefs(ky, next) => 6 + if next < |ky.status.endpoints| then |ky.status.endpoints| - next else 0
    case RecordEndpoints(_, expected) => 7 + |expected|
    case RecordConfig(_, expected) => 8 + |expected|
    case RollProxy(_, expected, _) => 9 + |expected|
    case ReadProxy(_, expected) => 10 + |expected|
    case WriteConfig(_, expected, _) => 11 + |expected|
  }

  function AfterProxy(ky: Kanary): (t: Task)
    ensures Rank(t) <= 3
  {
    if ky.spec.destination == ky.status.destination.serviceName then Done(false)
    else if ky.status.destination.serviceName == "" then PublishService(ky)
    else RemoveService(ky)
  }

  function AfterConfig(ky: Kanary): (t: Task)
    ensures Rank(t) <= 5
  {
    if ky.HAProxyCreationNeeded() then CreateProxy(ky) else AfterProxy(ky)
  }

  function RefsFrom(ky: Kanary, next: nat): (t: Task)
    ensures Rank(t) <= 6 + if next < |ky.status.endpoints| then |ky.status.endpoints| - next else 0
  {
    if next < |ky.status.endpoints| then AddRefs(ky, next) else AfterConfig(ky)
  }

  /** The decisions before the first call. */
  function Begin(printer: WeightPrinter, lookup: Lookup, cache: EndpointsCache): Task {
    match lookup
    case NotFound => Done(false)
    case LookupFailed => Done(true)
    case Found(ky) =>
      match ExpectedOf(ky.spec.routes, cache)
      case None => Done(false)
      case Some(expected) => BeginWith(printer, ky, expected)
  }

  function BeginWith(printer: WeightPrinter, ky: Kanary, expected: seq<KanaryEndpointList>): Task {
    if StatusCovers(expected, ky.status.endpoints) then AfterConfig(ky)
    else WriteConfig(ky, expected, Render(printer, Backends(FloatShare, expected)))
  }

  function Next<T>(a: Answer<T>, err: bool, t: Task): (r: (Store, Task))
    ensures Rank(r.1) <= Rank(t)
  {
    (a.store, if a.reply.None? then Done(err) else t)
  }

  /** One back-reference: the Endpoints object as the lister shows it, edited and
      written back. A missing object or an unreadable annotation ends in an error
      without any write, as a refused update does. */
  function AddKanaryRef(s: Store, cache: EndpointsCache, service: string, owner: string): Answer<Endpoints> {
    if service !in cache then Answer(s, None)
    else
      match AddRef(cache[service].kanaryRef, owner)
      case None => Answer(s, None)
      case Some(refs) => UpdateEndpoints(s, cache[service].(kanaryRef := refs))
  }

  function Step(s: Store, t: Task, tick: Tick): (r: (Store, Task))
    requires !t.Done?
    ensures Rank(r.1) < Rank(t)
  {
    hide AfterProxy, AfterConfig, RefsFrom, Next, Rolled, AddKanaryRef;
    var v := tick.verdict;
    match t
    case WriteConfig(ky, expected, config) =>
      if ky.status.destination.configName == "" then
        Next(Served(v, s, CreateConfigMap(s, NewConfigMap(ky, config))), false, RecordConfig(ky, expected))
      else
        Next(Served(v, s, UpdateConfigMap(s, NewConfigMap(ky, config))), false, ReadProxy(ky, expected))
    case ReadProxy(ky, expected) =>
      var a := Served(v, s, GetDeployment(s, ky.status.destination.proxyName));
      (a.store, if a.reply.None? then Done(false) else RollProxy(ky, expected, a.reply.value))
    case RollProxy(ky, expected, deployment) =>
      Next(Served(v, s, UpdateDeployment(s, Rolled(deployment))), false, RecordConfig(ky, expected))
    case RecordConfig(ky, expected) =>
      var a := Served(v, s, UpdateKanary(s, ky.WithConfigName(ConfigMapName(ky.name))));
      (a.store, if a.reply.None? then Done(false) else RecordEndpoints(a.reply.value, expected))
    case RecordEndpoints(ky, expected) =>
      var a := Served(v, s, UpdateKanary(s, ky.WithEndpoints(expected)));
      (a.store, if a.reply.None? then Done(false) else RefsFrom(a.reply.value, 0))
    case AddRefs(ky, next) =>
      if next >= |ky.status.endpoints| then (s, AfterConfig(ky))
      else
        var a := Served(v, s, AddKanaryRef(s, tick.cache.GetOr(s.endpoints), ky.status.endpoints[next].serviceName, ky.name));
        Next(a, false, RefsFrom(ky, next + 1))
    case CreateProxy(ky) =>
      Next(Served(v, s, CreateDeployment(s, NewDeployment(ky))), false, RecordProxy(ky))
    case RecordProxy(ky) =>
      var a := Served(v, s, UpdateKanary(s, ky.WithProxyName(ProxyName(ky.name))));
      (a.store, if a.reply.None? then Done(false) else AfterProxy(a.reply.value))
    case RemoveService(ky) =>
      Next(Served(v, s, DeleteService(s, ky.status.destination.serviceName)), false, PublishService(ky))
    case PublishService(ky) =>
      Next(Served(v, s, CreateService(s, NewService(ky))), false, RecordService(ky))
    case RecordService(ky) =>
      Next(Served(v, s, UpdateKanary(s, ky.WithServiceName(ky.spec.destination))), true, Done(false))
  }

  // ---------- an uninterrupted sync ----------

  function HeadTick(script: seq<Tick>): Tick {
    if script == [] then CALM else script[0]
  }

  function TailTicks(script: seq<Tick>): seq<Tick> {
    if script == [] then [] else script[1..]
  }

  /** Running a task to its end without interleaving. The script says what each
      call meets; calls beyond its end are honoured on an up-to-date cache. The
      result is the final store and whether the sync returned an error. */
  function Run(s: Store, t: Task, script: seq<Tick>): (Store, bool)
    decreases Rank(t)
  {
    if t.Done? then (s, t.err)
    else
      var (s', t') := Step(s, t, HeadTick(script));
      Run(s', t', TailTicks(script))
  }

  /** A fault-free sync on a current view. */
  function Sync(printer: WeightPrinter, s: Store, name: string): Store {
    Run(s, Begin(printer, if name in s.kanaries then Found(s.kanaries[name]) else NotFound, s.endpoints), []).0
  }
}
