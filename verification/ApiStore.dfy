/** The Kubernetes API server as the controller sees it: one map per kind of
    object and optimistic concurrency on the kinds whose objects carry a version.

    Every successful write takes the next revision, so versions are never reused,
    not even by an object that was deleted and created again. */
module ApiStore {
  import opened KanaryTypes

  type Counts = map<string, nat>

  /** configWrites and rolls count the successful writes of a ConfigMap and the
      successful rolling updates of a Deployment; no operation reads them. */
  datatype Store = Store(
    rev: nat,
    kanaries: map<string, Kanary>,
    endpoints: map<string, Endpoints>,
    configMaps: map<string, ConfigMap>,
    deployments: map<string, Deployment>,
    services: map<string, Service>,
    configWrites: Counts,
    rolls: Counts)

  /** The state after a call and its reply; None is an error reply. */
  datatype Answer<+T> = Answer(store: Store, reply: Option<T>)

  function Count(counts: Counts, name: string): nat {
    if name in counts then counts[name] else 0
  }

  function Counted(counts: Counts, name: string): Counts {
    counts[name := Count(counts, name) + 1]
  }

  function UpdateKanary(s: Store, ky: Kanary): Answer<Kanary> {
    if ky.name in s.kanaries && s.kanaries[ky.name].version == ky.version then
      var stored := ky.(version := s.rev + 1);
      Answer(s.(rev := s.rev + 1, kanaries := s.kanaries[ky.name := stored]), Some(stored))
    else Answer(s, None)
  }

  function UpdateEndpoints(s: Store, ep: Endpoints): Answer<Endpoints> {
    if ep.name in s.endpoints && s.endpoints[ep.name].version == ep.version then
      var stored := ep.(version := s.rev + 1);
      Answer(s.(rev := s.rev + 1, endpoints := s.endpoints[ep.name := stored]), Some(stored))
    else Answer(s, None)
  }

  function CreateConfigMap(s: Store, cm: ConfigMap): Answer<ConfigMap> {
    if cm.name in s.configMaps then Answer(s, None)
    else Answer(s.(rev := s.rev + 1,
                   configMaps := s.configMaps[cm.name := cm],
                   configWrites := Counted(s.configWrites, cm.name)), Some(cm))
  }

  /** The new ConfigMap carries no version, so the update is unconditional. */
  function UpdateConfigMap(s: Store, cm: ConfigMap): Answer<ConfigMap> {
    if cm.name !in s.configMaps then Answer(s, None)
    else Answer(s.(rev := s.rev + 1,
                   configMaps := s.configMaps[cm.name := cm],
                   configWrites := Counted(s.configWrites, cm.name)), Some(cm))
  }

  function GetDeployment(s: Store, name: string): Answer<Deployment> {
    Answer(s, if name in s.deployments then Some(s.deployments[name]) else None)
  }

  function CreateDeployment(s: Store, d: Deployment): Answer<Deployment> {
    if d.name in s.deployments then Answer(s, None)
    else
      var stored := d.(version := s.rev + 1);
      Answer(s.(rev := s.rev + 1, deployments := s.deployments[d.name := stored]), Some(stored))
  }

  function UpdateDeployment(s: Store, d: Deployment): Answer<Deployment> {
    if d.name in s.deployments && s.deployments[d.name].version == d.version then
      var stored := d.(version := s.rev + 1);
      Answer(s.(rev := s.rev + 1,
                deployments := s.deployments[d.name := stored],
                rolls := Counted(s.rolls, d.name)), Some(stored))
    else Answer(s, None)
  }

  function CreateService(s: Store, svc: Service): Answer<Service> {
    if svc.name in s.services then Answer(s, None)
    else Answer(s.(rev := s.rev + 1, services := s.services[svc.name := svc]), Some(svc))
  }

  function DeleteService(s: Store, name: string): Answer<()> {
    if name !in s.services then Answer(s, None)
    else Answer(s.(rev := s.rev + 1, services := s.services - {name}), Some(()))
  }
}
