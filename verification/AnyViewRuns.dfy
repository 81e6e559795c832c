/** Runs of fault-free syncs on whatever recent views, repeated services included: at
    every boundary a Kanary is blank, half set or all set. */
module AnyViewRuns {
  import opened KanaryTypes
  import opened EndpointDiff
  import opened ExpectedStatus
  import opened ConfigText
  import opened BackRefs
  import opened ApiStore
  import opened SyncProtocol
  import opened NonInterference
  import opened CalmSync
  import opened Views
  import opened FixedViews
  import opened DeletionRuns
  import opened CalmRuns
  import opened HalfSets

  /** Configuration and endpoints are recorded and there is a ConfigMap, whatever its
      text; proxy and service are both recorded and there, or both not. */
  ghost predicate Written(reserved: Reservations, s: Store, k: string) {
    && k in s.kanaries
    && var ky := s.kanaries[k];
       && ky.status.endpoints != [] && ky.status.destination.configName == ConfigMapName(k)
       && ConfigMapName(k) in s.configMaps && RestAgrees(reserved, s.deployments, s.rolls, s.services, k, ky)
  }

  ghost predicate Shaped(reserved: Reservations, s: Store, k: string) {
    && k in s.kanaries && SpecAllowed(reserved, k, s.kanaries[k].spec)
    && (Blank(reserved, s, k) || Written(reserved, s, k))
  }

  ghost predicate AllShaped(reserved: Reservations, s: Store) {
    Sound(s) && "" !in s.deployments && forall k :: k in s.kanaries ==> Shaped(reserved, s, k)
  }

  // ---------- the text of the configuration does not steer a sync ----------

  /** The stores differ at most in what their ConfigMaps say and how often they were written. */
  ghost predicate SameButConfig(s: Store, u: Store) {
    && u.rev == s.rev && u.kanaries == s.kanaries && u.endpoints == s.endpoints && u.deployments == s.deployments
    && u.services == s.services && u.rolls == s.rolls && u.configMaps.Keys == s.configMaps.Keys
  }

  lemma ServedBlind<T>(verdict: Verdict, s: Store, u: Store, a: Answer<T>, b: Answer<T>)
    requires SameButConfig(s, u) && SameButConfig(a.store, b.store) && a.reply == b.reply
    ensures Served(verdict, s, a).reply == Served(verdict, u, b).reply
    ensures SameButConfig(Served(verdict, s, a).store, Served(verdict, u, b).store)
  {
  }

  lemma ConfigCallBlind(s: Store, u: Store, t: Task, tick: Tick)
    requires SameButConfig(s, u) && t.WriteConfig?
    ensures Step(s, t, tick).1 == Step(u, t, tick).1 && SameButConfig(Step(s, t, tick).0, Step(u, t, tick).0)
  {
    var cm := NewConfigMap(t.ky, t.config);
    ConfigPutsBlind(s, u, cm);
    hide NewConfigMap, Served, CreateConfigMap, UpdateConfigMap, SameButConfig;
    ServedBlind(tick.verdict, s, u, CreateConfigMap(s, cm), CreateConfigMap(u, cm));
    ServedBlind(tick.verdict, s, u, UpdateConfigMap(s, cm), UpdateConfigMap(u, cm));
  }

  lemma ConfigPutsBlind(s: Store, u: Store, cm: ConfigMap)
    requires SameButConfig(s, u)
    ensures var (a, b) := (CreateConfigMap(s, cm), CreateConfigMap(u, cm));
            SameButConfig(a.store, b.store) && a.reply == b.reply
    ensures var (a, b) := (UpdateConfigMap(s, cm), UpdateConfigMap(u, cm));
            SameButConfig(a.store, b.store) && a.reply == b.reply
  {
    hide Counted;
  }

  lemma DeploymentCallsBlind(s: Store, u: Store, d: Deployment, name: string)
    requires SameButConfig(s, u)
    ensures var (a, b) := (GetDeployment(s, name), GetDeployment(u, name));
            SameButConfig(a.store, b.store) && a.reply == b.reply
    ensures var (a, b) := (CreateDeployment(s, d), CreateDeployment(u, d));
            SameButConfig(a.store, b.store) && a.reply == b.reply
    ensures var (a, b) := (UpdateDeployment(s, d), UpdateDeployment(u, d));
            SameButConfig(a.store, b.store) && a.reply == b.reply
  {
    hide Counted;
  }

  lemma ServiceCallsBlind(s: Store, u: Store, svc: Service, name: string)
    requires SameButConfig(s, u)
    ensures var (a, b) := (CreateService(s, svc), CreateService(u, svc));
            SameButConfig(a.store, b.store) && a.reply == b.reply
    ensures var (a, b) := (ApiStore.DeleteService(s, name), ApiStore.DeleteService(u, name));
            SameButConfig(a.store, b.store) && a.reply == b.reply
  {
  }

  lemma ProxyCallBlind(s: Store, u: Store, t: Task, tick: Tick)
    requires SameButConfig(s, u) && (t.ReadProxy? || t.RollProxy? || t.CreateProxy?)
    ensures Step(s, t, tick).1 == Step(u, t, tick).1 && SameButConfig(Step(s, t, tick).0, Step(u, t, tick).0)
  {
    hide NewDeployment, Rolled, Served, SameButConfig, CreateDeployment, UpdateDeployment, GetDeployment;
    match t
    case ReadProxy(ky, _) =>
      var name := ky.status.destination.proxyName;
      DeploymentCallsBlind(s, u, NewDeployment(ky), name);
      ServedBlind(tick.verdict, s, u, GetDeployment(s, name), GetDeployment(u, name));
    case RollProxy(_, _, d) =>
      DeploymentCallsBlind(s, u, Rolled(d), "");
      ServedBlind(tick.verdict, s, u, UpdateDeployment(s, Rolled(d)), UpdateDeployment(u, Rolled(d)));
    case CreateProxy(ky) =>
      DeploymentCallsBlind(s, u, NewDeployment(ky), "");
      ServedBlind(tick.verdict, s, u, CreateDeployment(s, NewDeployment(ky)), CreateDeployment(u, NewDeployment(ky)));
  }

  lemma ServiceCallBlind(s: Store, u: Store, t: Task, tick: Tick)
    requires SameButConfig(s, u) && (t.RemoveService? || t.PublishService?)
    ensures Step(s, t, tick).1 == Step(u, t, tick).1 && SameButConfig(Step(s, t, tick).0, Step(u, t, tick).0)
  {
    hide NewService, Served, SameButConfig, CreateService, ApiStore.DeleteService;
    match t
    case RemoveService(ky) =>
      var name := ky.status.destination.serviceName;
      ServiceCallsBlind(s, u, NewService(ky), name);
      ServedBlind(tick.verdict, s, u, ApiStore.DeleteService(s, name), ApiStore.DeleteService(u, name));
    case PublishService(ky) =>
      ServiceCallsBlind(s, u, NewService(ky), "");
      ServedBlind(tick.verdict, s, u, CreateService(s, NewService(ky)), CreateService(u, NewService(ky)));
  }

  lemma RefCallBlind(s: Store, u: Store, t: Task, tick: Tick)
    requires SameButConfig(s, u) && t.AddRefs?
    ensures Step(s, t, tick).1 == Step(u, t, tick).1 && SameButConfig(Step(s, t, tick).0, Step(u, t, tick).0)
  {
    if t.next < |t.ky.status.endpoints| {
      var cache, service := tick.cache.GetOr(s.endpoints), t.ky.status.endpoints[t.next].serviceName;
      RefPutsBlind(s, u, cache, service, t.ky.name);
      hide Served, AddKanaryRef, AfterConfig, RefsFrom;
      ServedBlind(tick.verdict, s, u, AddKanaryRef(s, cache, service, t.ky.name), AddKanaryRef(u, cache, service, t.ky.name));
    }
  }

  lemma RefPutsBlind(s: Store, u: Store, cache: EndpointsCache, service: string, owner: string)
    requires SameButConfig(s, u)
    ensures var (a, b) := (AddKanaryRef(s, cache, service, owner), AddKanaryRef(u, cache, service, owner));
            SameButConfig(a.store, b.store) && a.reply == b.reply
  {
    hide AddRef;
  }

  lemma StatusCallBlind(s: Store, u: Store, t: Task, tick: Tick)
    requires SameButConfig(s, u) && (t.RecordConfig? || t.RecordEndpoints? || t.RecordProxy? || t.RecordService?)
    ensures Step(s, t, tick).1 == Step(u, t, tick).1 && SameButConfig(Step(s, t, tick).0, Step(u, t, tick).0)
  {
    hide Served, AfterProxy, RefsFrom;
    var ky := match t
              case RecordConfig(ky, _) => ky.WithConfigName(ConfigMapName(ky.name))
              case RecordEndpoints(ky, expected) => ky.WithEndpoints(expected)
              case RecordProxy(ky) => ky.WithProxyName(ProxyName(ky.name))
              case RecordService(ky) => ky.WithServiceName(ky.spec.destination);
    ServedBlind(tick.verdict, s, u, UpdateKanary(s, ky), UpdateKanary(u, ky));
  }

  lemma StepBlind(s: Store, u: Store, t: Task, tick: Tick)
    requires SameButConfig(s, u) && !t.Done?
    ensures Step(s, t, tick).1 == Step(u, t, tick).1 && SameButConfig(Step(s, t, tick).0, Step(u, t, tick).0)
  {
    hide *;
    if t.WriteConfig? {
      ConfigCallBlind(s, u, t, tick);
    } else if t.ReadProxy? || t.RollProxy? || t.CreateProxy? {
      ProxyCallBlind(s, u, t, tick);
    } else if t.RemoveService? || t.PublishService? {
      ServiceCallBlind(s, u, t, tick);
    } else if t.AddRefs? {
      RefCallBlind(s, u, t, tick);
    } else {
      StatusCallBlind(s, u, t, tick);
    }
  }

  lemma {:induction false} RunBlind(seen: set<Endpoints>, s: Store, u: Store, t: Task, script: seq<Tick>)
    requires SameButConfig(s, u)
    ensures SameButConfig(Run(s, t, script).0, Run(u, t, script).0)
    ensures Recent(seen, s, t, script) ==> Recent(seen, u, t, script)
    decreases Rank(t)
  {
    hide Step;
    if t.Done? {
    } else {
      var (s', t') := Step(s, t, HeadTick(script));
      var u' := Step(u, t, HeadTick(script)).0;
      StepBlind(s, u, t, HeadTick(script));
      RunBlind(seen + s'.endpoints.Values, s', u', t', TailTicks(script));
    }
  }

  // ---------- one sync ----------

  /** The same store, its ConfigMap saying what the status of k records. */
  ghost function Repaired(printer: WeightPrinter, s: Store, k: string): Store
    requires k in s.kanaries
  {
    var name := ConfigMapName(k);
    s.(configMaps := s.configMaps[name := ConfigMap(name, ConfigFor(printer, s.kanaries[k].status.endpoints))],
       configWrites := s.configWrites[name := 1 + Count(s.rolls, ProxyName(k))])
  }

  lemma RepairedHolds(printer: WeightPrinter, s: Store, k: string)
    requires k in s.kanaries && ConfigMapName(k) in s.configMaps
    ensures var r := Repaired(printer, s, k);
            && SameButConfig(s, r)
            && ConfigHolds(printer, r.configMaps, r.configWrites, r.rolls, k, s.kanaries[k].status.endpoints, 0)
  {
    hide ConfigFor, ConfigMapName, ProxyName;
  }

  lemma SameButConfigKeeps(reserved: Reservations, s: Store, u: Store, k: string)
    requires SameButConfig(s, u) && Written(reserved, s, k)
    ensures Written(reserved, u, k)
  {
    hide RestAgrees;
  }

  lemma EndedIsWritten(reserved: Reservations, printer: WeightPrinter, s: Store, k: string,
                       exp: seq<KanaryEndpointList>, watched: bool)
    requires Ended(reserved, printer, s, k, exp, watched)
    ensures Written(reserved, s, k)
  {
    hide ConfigFor, ProxyPresent, ServicePresent;
  }

  lemma PausedIsWritten(reserved: Reservations, printer: WeightPrinter, s: Store, k: string,
                        exp: seq<KanaryEndpointList>, next: nat, watched: bool)
    requires Paused(reserved, printer, s, k, exp, next, watched)
    ensures Written(reserved, s, k)
  {
    PausedParts(reserved, printer, s, k, exp, next, watched);
    hide Paused, RestAgrees, ExpectedOf, WellKeyed, NoneMalformed, Referenced, StatusCovers, Repeats, ConfigFor;
  }

  /** From a boundary, even of a repaired store. */
  lemma SettledSyncWrites(reserved: Reservations, printer: WeightPrinter, s: Store, k: string, script: seq<Tick>)
    requires Sound(s) && Settled(reserved, printer, s, k, false) && RecentSync(printer, s, k, script)
    requires ExpectedOf(s.kanaries[k].spec.routes, s.endpoints).Some?
    ensures Written(reserved, SyncSeeing(printer, s, k, script), k)
  {
    var u, exp := SyncSeeing(printer, s, k, script), ExpectedOf(s.kanaries[k].spec.routes, s.endpoints).value;
    hide Settled, Start, Run, RecentSync, ExpectedOf, Ended, Paused, Written, WellKeyed, NoneMalformed, Versioned, NoRepeat;
    OutcomeOnAnyView(reserved, printer, s, k, script, false);
    if Ended(reserved, printer, u, k, exp, false) {
      EndedIsWritten(reserved, printer, u, k, exp, false);
    } else {
      var next :| Paused(reserved, printer, u, k, exp, next, false);
      PausedIsWritten(reserved, printer, u, k, exp, next, false);
    }
  }

  /** With a recorded configuration the sync goes as it would with the right text. */
  lemma WrittenSyncWrites(reserved: Reservations, printer: WeightPrinter, s: Store, k: string, script: seq<Tick>)
    requires Sound(s) && "" !in s.deployments && Written(reserved, s, k) && SpecAllowed(reserved, k, s.kanaries[k].spec)
    requires RecentSync(printer, s, k, script) && ExpectedOf(s.kanaries[k].spec.routes, s.endpoints).Some?
    ensures Written(reserved, SyncSeeing(printer, s, k, script), k)
  {
    var ky, exp := s.kanaries[k], ExpectedOf(s.kanaries[k].spec.routes, s.endpoints).value;
    if !StatusCovers(exp, ky.status.endpoints) && ky.HAProxyCreationNeeded() {
      UnprovidedSyncWrites(reserved, printer, s, k, script);
    } else {
      var r := Repaired(printer, s, k);
      RepairedHolds(printer, s, k);
      RepairedSync(printer, s, r, k, script);
      RepairedIsSound(s, r);
      assert RestAgrees(reserved, r.deployments, r.rolls, r.services, k, ky);
      assert r.kanaries == s.kanaries && r.endpoints == s.endpoints;
      var u := SyncSeeing(printer, r, k, script);
      hide RestAgrees, SyncSeeing, RecentSync, ExpectedOf, Settled, SameButConfig, Repaired, Sound, ConfigHolds;
      if StatusCovers(exp, ky.status.endpoints) {
        CoveredFromParts(reserved, printer, r, k, exp);
        CoveredGoesOn(reserved, printer, r, k, exp, script) by { SoundParts(r); }
        EndedIsWritten(reserved, printer, u, k, exp, false);
      } else {
        CompleteFromParts(reserved, printer, r, k);
        SettledSyncWrites(reserved, printer, r, k, script);
      }
      SameButConfigKeeps(reserved, u, SyncSeeing(printer, s, k, script), k);
    }
  }

  lemma RepairedSync(printer: WeightPrinter, s: Store, r: Store, k: string, script: seq<Tick>)
    requires SameButConfig(s, r) && RecentSync(printer, s, k, script)
    ensures RecentSync(printer, r, k, script)
    ensures SameButConfig(SyncSeeing(printer, r, k, script), SyncSeeing(printer, s, k, script))
  {
    assert Start(printer, s, k) == Start(printer, r, k);
    hide Start, Run, Recent;
    RunBlind(s.endpoints.Values, s, r, Start(printer, s, k), script);
  }

  lemma RepairedIsSound(s: Store, r: Store)
    requires Sound(s) && SameButConfig(s, r)
    ensures Sound(r)
  {
  }

  lemma CoveredFromParts(reserved: Reservations, printer: WeightPrinter, s: Store, k: string, exp: seq<KanaryEndpointList>)
    requires Sound(s) && Written(reserved, s, k) && SpecAllowed(reserved, k, s.kanaries[k].spec)
    requires ExpectedOf(s.kanaries[k].spec.routes, s.endpoints) == Some(exp)
    requires StatusCovers(exp, s.kanaries[k].status.endpoints)
    requires ConfigHolds(printer, s.configMaps, s.configWrites, s.rolls, k, s.kanaries[k].status.endpoints, 0)
    ensures Covered(reserved, printer, s, k, exp)
  {
    assert exp != [];
    hide RestAgrees, ExpectedOf, StatusCovers, ConfigHolds, SpecAllowed, WellKeyed, NoneMalformed, Versioned;
  }

  lemma CompleteFromParts(reserved: Reservations, printer: WeightPrinter, s: Store, k: string)
    requires Written(reserved, s, k) && SpecAllowed(reserved, k, s.kanaries[k].spec)
    requires !s.kanaries[k].HAProxyCreationNeeded()
    requires ConfigHolds(printer, s.configMaps, s.configWrites, s.rolls, k, s.kanaries[k].status.endpoints, 0)
    ensures Settled(reserved, printer, s, k, false)
  {
    hide ConfigHolds, ProxyPresent, ProxyAbsent, ServicePresent, NoService, SpecAllowed;
  }

  /** Without a proxy and with another expectation it stops at the roll. */
  lemma UnprovidedSyncWrites(reserved: Reservations, printer: WeightPrinter, s: Store, k: string, script: seq<Tick>)
    requires Sound(s) && "" !in s.deployments && Written(reserved, s, k) && SpecAllowed(reserved, k, s.kanaries[k].spec)
    requires RecentSync(printer, s, k, script) && s.kanaries[k].HAProxyCreationNeeded()
    requires var exp := ExpectedOf(s.kanaries[k].spec.routes, s.endpoints);
             exp.Some? && !StatusCovers(exp.value, s.kanaries[k].status.endpoints)
    ensures Written(reserved, SyncSeeing(printer, s, k, script), k)
  {
    var exp := ExpectedOf(s.kanaries[k].spec.routes, s.endpoints).value;
    var config := ConfigFor(printer, exp);
    WrittenIsHalfWay(reserved, s, k);
    HalfSetStart(printer, s, k, exp);
    HonouredTwice(s, k, exp, config, script) by {
      hide ConfigFor, ExpectedOf, StatusCovers, Start;
    }
    RollingNothing(s, k, exp, config, script);
    hide RestAgrees, Start, Run, ConfigFor, ExpectedOf, StatusCovers, ConfigMapName, ProxyName, Counted;
  }

  lemma WrittenIsHalfWay(reserved: Reservations, s: Store, k: string)
    requires Sound(s) && "" !in s.deployments && Written(reserved, s, k) && SpecAllowed(reserved, k, s.kanaries[k].spec)
    requires s.kanaries[k].HAProxyCreationNeeded()
    ensures HalfWay(s, k)
  {
    hide NoneMalformed, Versioned, WellKeyed, ConfigMapName, ProxyPresent, ServicePresent;
  }

  lemma HonouredTwice(s: Store, k: string, exp: seq<KanaryEndpointList>, config: string, script: seq<Tick>)
    requires HalfWay(s, k) && Recent(s.endpoints.Values, s, WriteConfig(s.kanaries[k], exp, config), script)
    ensures HeadTick(script).verdict.Honoured? && HeadTick(TailTicks(script)).verdict.Honoured?
  {
    var t := WriteConfig(s.kanaries[k], exp, config);
    hide Counted, ConfigMapName;
    assert Step(s, t, HeadTick(script)) == (ConfigReplaced(s, k, config), ReadProxy(s.kanaries[k], exp));
  }

  // ---------- all Kanaries ----------

  lemma ShapedWithin(reserved: Reservations, s: Store, k: string)
    requires WellKeyed(s) && Shaped(reserved, s, k)
    ensures Within(s.kanaries[k], Destinations(s, k))
    ensures forall d :: d in Destinations(s, k) ==> d in reserved && reserved[d] == k
  {
    hide ProxyPresent, ProxyAbsent, NoService, ConfigAbsent;
  }

  lemma UnmovedIsShaped(reserved: Reservations, s: Store, u: Store, k: string)
    requires Shaped(reserved, s, k) && Unmoved(reserved, s, u, k, false)
    ensures Shaped(reserved, u, k)
  {
    hide SpecAllowed, ProxyName, ConfigMapName;
  }

  lemma KeptIsSound(s: Store, u: Store, k: string, ds: set<string>)
    requires Sound(s) && "" !in s.deployments && OthersKept(k, ds, s, u) && WellKeyed(u) && Versioned(u)
    ensures Sound(u) && "" !in u.deployments
  {
    assert DeploymentAlike("", s.deployments, s.rolls, u.deployments, u.rolls);
    hide KanariesKept, ConfigMapsKept, ServicesKept, WellKeyed, Versioned;
    forall n | n in u.endpoints ensures !u.endpoints[n].kanaryRef.Malformed? {
      assert Appended(k, s.endpoints[n].kanaryRef, u.endpoints[n].kanaryRef);
    }
  }

  lemma SyncKeepsShapes(reserved: Reservations, printer: WeightPrinter, s: Store, k: string, script: seq<Tick>)
    requires AllShaped(reserved, s) && RecentSync(printer, s, k, script)
    ensures AllShaped(reserved, SyncSeeing(printer, s, k, script))
  {
    if k in s.kanaries && ExpectedOf(s.kanaries[k].spec.routes, s.endpoints).Some? {
      var ds, u := Destinations(s, k), SyncSeeing(printer, s, k, script);
      ShapedWithin(reserved, s, k);
      hide SyncSeeing, RecentSync, Destinations, ExpectedOf, Written, Blank, SpecAllowed, WellKeyed, NoneMalformed, Versioned;
      RecentSyncKeepsOthers(printer, s, k, script, ds);
      KeptIsSound(s, u, k, ds);
      OwnShape(reserved, printer, s, k, script);
      hide OthersKept, Shaped, Sound;
      forall j | j in u.kanaries ensures Shaped(reserved, u, j) {
        if j != k {
          OthersShape(reserved, s, u, k, ds, j);
        }
      }
    } else {
      NothingToDo(printer, s, k, script);
    }
  }

  lemma OthersShape(reserved: Reservations, s: Store, u: Store, k: string, ds: set<string>, j: string)
    requires AllShaped(reserved, s) && OthersKept(k, ds, s, u) && j != k && j in u.kanaries
    requires forall d :: d in ds ==> d in reserved && reserved[d] == k
    ensures Shaped(reserved, u, j)
  {
    assert j in s.kanaries;
    assert Shaped(reserved, s, j);
    hide OthersKept, Sound, Unmoved, Blank, Written;
    OthersUnmoved(reserved, s, u, k, ds, j, false);
    UnmovedIsShaped(reserved, s, u, j);
  }

  lemma OwnShape(reserved: Reservations, printer: WeightPrinter, s: Store, k: string, script: seq<Tick>)
    requires AllShaped(reserved, s) && RecentSync(printer, s, k, script) && k in s.kanaries
    requires ExpectedOf(s.kanaries[k].spec.routes, s.endpoints).Some?
    ensures var u := SyncSeeing(printer, s, k, script);
            k in u.kanaries && u.kanaries[k].spec == s.kanaries[k].spec ==> Shaped(reserved, u, k)
  {
    assert Shaped(reserved, s, k);
    hide SyncSeeing, RecentSync, ExpectedOf, Written, Blank, SpecAllowed, Sound;
    if Blank(reserved, s, k) {
      assert Settled(reserved, printer, s, k, false);
      SettledSyncWrites(reserved, printer, s, k, script);
    } else {
      WrittenSyncWrites(reserved, printer, s, k, script);
    }
  }

  // ---------- runs ----------

  ghost predicate OccursOnAnyView(reserved: Reservations, printer: WeightPrinter, s: Store, e: CalmEvent, next: Store) {
    && (if e.SyncOf? then RecentSync(printer, s, e.k, e.script) else Allowed(reserved, printer, s, e, false))
    && next == Happen(printer, s, e)
  }

  /** As a fault-free run, but its syncs see any recent views and record what they may. */
  ghost predicate AnyViewRun(reserved: Reservations, printer: WeightPrinter, states: seq<Store>, events: seq<CalmEvent>) {
    && |states| == |events| + 1
    && Fresh(states[0]) && "" !in states[0].deployments
    && forall i {:trigger events[i]} :: 0 <= i < |events| ==>
         OccursOnAnyView(reserved, printer, states[i], events[i], states[i + 1])
  }

  lemma NoNamelessProxy(reserved: Reservations, printer: WeightPrinter, s: Store, e: CalmEvent)
    requires Sound(s) && "" !in s.deployments && Allowed(reserved, printer, s, e, false) && !e.SyncOf?
    ensures "" !in Happen(printer, s, e).deployments
  {
    hide AfterDeletion, UndisturbedDeletion, ConfigMapName, ProxyName, SpecAllowed;
    if e.DeleteKanary? && e.k in s.kanaries {
      DeletedShape(s, e.k, e.script);
    }
  }

  lemma EventKeepsShapes(reserved: Reservations, printer: WeightPrinter, s: Store, e: CalmEvent, next: Store)
    requires AllShaped(reserved, s) && OccursOnAnyView(reserved, printer, s, e, next)
    ensures AllShaped(reserved, next)
  {
    hide Sound, Shaped, RecentSync, SyncSeeing, Allowed;
    if e.SyncOf? {
      SyncKeepsShapes(reserved, printer, s, e.k, e.script);
    } else {
      hide Happen;
      EnvironmentKeepsSound(reserved, printer, s, e, false);
      NoNamelessProxy(reserved, printer, s, e);
      forall k | k in next.kanaries ensures Shaped(reserved, next, k) {
        if k in s.kanaries {
          ShapedSpec(reserved, s, k);
          EnvironmentUnmoved(reserved, printer, s, e, k, false);
          UnmovedIsShaped(reserved, s, next, k);
        } else {
          OnlyCreationAdds(reserved, printer, s, e, k, false);
          CreatedIsBlank(reserved, printer, s, e, false);
          BlankIsShaped(reserved, next, k);
        }
      }
    }
  }

  lemma ShapedSpec(reserved: Reservations, s: Store, k: string)
    requires Shaped(reserved, s, k)
    ensures k in s.kanaries && SpecAllowed(reserved, k, s.kanaries[k].spec)
  {
  }

  lemma BlankIsShaped(reserved: Reservations, s: Store, k: string)
    requires Blank(reserved, s, k) && SpecAllowed(reserved, k, s.kanaries[k].spec)
    ensures Shaped(reserved, s, k)
  {
  }

  lemma FreshIsShaped(reserved: Reservations, s: Store)
    requires Fresh(s) && "" !in s.deployments
    ensures AllShaped(reserved, s)
  {
  }

  lemma {:induction false} AlwaysShaped(reserved: Reservations, printer: WeightPrinter, states: seq<Store>,
                                        events: seq<CalmEvent>, i: nat)
    requires AnyViewRun(reserved, printer, states, events) && i < |states|
    ensures AllShaped(reserved, states[i])
    decreases i
  {
    hide AllShaped, OccursOnAnyView;
    if i == 0 {
      FreshIsShaped(reserved, states[0]);
    } else {
      AlwaysShaped(reserved, printer, states, events, i - 1);
      assert OccursOnAnyView(reserved, printer, states[i - 1], events[i - 1], states[i]);
      EventKeepsShapes(reserved, printer, states[i - 1], events[i - 1], states[i]);
    }
  }

  /** On whatever recent views, at every boundary: a status is blank, half set (then the
      objects are, too, and its next sync is that of HalfSetSync), or all set with a
      ConfigMap, the proxy and the service it names. */
  lemma BlankHalfOrAllSet(reserved: Reservations, printer: WeightPrinter, states: seq<Store>, events: seq<CalmEvent>,
                          i: nat, k: string)
    requires AnyViewRun(reserved, printer, states, events) && i < |states| && k in states[i].kanaries
    ensures var u := states[i];
            var st := u.kanaries[k].status;
            var d := st.destination;
            || st == BLANK_STATUS
            || HalfWay(u, k)
            || (&& st.endpoints != [] && d.configName in u.configMaps && d.proxyName in u.deployments
                && d.serviceName in u.services && d.configName != "" && d.proxyName != "" && d.serviceName != "")
  {
    AlwaysShaped(reserved, printer, states, events, i);
    hide AnyViewRun, SpecAllowed, ConfigMapName, ProxyName, Sound;
    var u := states[i];
    assert Shaped(reserved, u, k);
    if Written(reserved, u, k) && u.kanaries[k].HAProxyCreationNeeded() {
      WrittenIsHalfWay(reserved, u, k);
    }
  }
}
