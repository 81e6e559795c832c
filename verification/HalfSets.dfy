/** What becomes of a Kanary that a sync has left half set: with its configuration and
    endpoints recorded, but without a proxy. */
module HalfSets {
  import opened KanaryTypes
  import opened EndpointDiff
  import opened ExpectedStatus
  import opened ConfigText
  import opened ApiStore
  import opened SyncProtocol
  import opened NonInterference
  import opened CalmSync
  import opened Views
  import opened FixedViews
  import opened CalmRuns

  /** Configuration and endpoints are recorded, proxy and service are not, and the
      objects are as the status says. */
  ghost predicate HalfWay(s: Store, k: string) {
    && WellKeyed(s) && k in s.kanaries
    && var ky := s.kanaries[k];
       && ky.status.destination == DestinationStatus("", "", ConfigMapName(k)) && ky.status.endpoints != []
       && ConfigMapName(k) in s.configMaps && ProxyName(k) !in s.deployments && "" !in s.deployments
       && ky.spec.destination != "" && ky.spec.destination !in s.services
  }

  /** The first sync of a Kanary that names a service twice, on the view it began with,
      leaves it so. */
  lemma FirstSyncLeavesHalfWay(reserved: Reservations, printer: WeightPrinter, s: Store, k: string, script: seq<Tick>)
    requires FixedSync(reserved, printer, s, k, script) && Blank(reserved, s, k) && "" !in s.deployments
    requires !NoRepeat(printer, s, k)
    ensures HalfWay(SyncSeeing(printer, s, k, script), k)
  {
    var exp, u := AimOf(printer, s, k), SyncSeeing(printer, s, k, script);
    FixedSyncIsRecent(reserved, printer, s, k, script);
    WritingExpects(printer, s, k);
    SettledWithin(reserved, printer, s, k, true);
    hide Start, Run, FixedSync, Ended, Paused, ExpectedOf, Repeats, NoneMalformed, Versioned, ConfigHolds, Referenced,
         Destinations, AimOf, NoRepeat, WellKeyed;
    FirstSyncOnFixedView(reserved, printer, s, k, script);
    OutcomeOnAnyView(reserved, printer, s, k, script, true);
    RecentSyncKeepsOthers(printer, s, k, script, Destinations(s, k));
    assert DeploymentAlike("", s.deployments, s.rolls, u.deployments, u.rolls);
    var next :| Paused(reserved, printer, u, k, exp, next, true);
    PausedParts(reserved, printer, u, k, exp, next, true);
    HalfSetParts(reserved, printer, u, k, exp, next);
  }

  lemma HalfSetParts(reserved: Reservations, printer: WeightPrinter, u: Store, k: string, exp: seq<KanaryEndpointList>,
                     next: nat)
    requires PausedIn(reserved, printer, u, k, exp, next) && HalfSet(u, k, exp) && "" !in u.deployments
    ensures HalfWay(u, k)
  {
    hide ExpectedOf, Repeats, Referenced, WellKeyed, NoneMalformed, ConfigFor, Count, ConfigMapName, ProxyName;
  }

  /** Every call is honoured, whatever its lister shows. */
  ghost predicate Honoured(script: seq<Tick>) {
    forall i :: 0 <= i < |script| ==> script[i].verdict.Honoured?
  }

  lemma NextHonoured(script: seq<Tick>)
    requires Honoured(script)
    ensures HeadTick(script).verdict.Honoured? && Honoured(TailTicks(script))
  {
  }

  lemma CallsWithoutView(s: Store, t: Task, tick: Tick)
    requires !t.Done? && !t.AddRefs? && tick.verdict.Honoured?
    ensures Step(s, t, tick) == Step(s, t, CALM)
  {
    hide AddKanaryRef, Rolled, CreateConfigMap, UpdateConfigMap, UpdateKanary, CreateDeployment, UpdateDeployment,
         CreateService, ApiStore.DeleteService;
  }

  /** Behind the references no call looks at the Endpoints. */
  lemma {:induction false} LateRun(s: Store, t: Task, script: seq<Tick>)
    requires Honoured(script) && !Early(t) && !t.AddRefs?
    ensures Run(s, t, script) == Run(s, t, [])
    decreases Rank(t)
  {
    NextHonoured(script);
    if t.Done? {
    } else {
      CallsWithoutView(s, t, HeadTick(script));
      StaysLate(s, t);
      hide Step, Early, Honoured;
      LateRun(Step(s, t, CALM).0, Step(s, t, CALM).1, TailTicks(script));
    }
  }

  /** The ConfigMap is replaced, and then there is no proxy to roll. */
  lemma RollingNothing(s: Store, k: string, exp: seq<KanaryEndpointList>, config: string, script: seq<Tick>)
    requires HalfWay(s, k) && HeadTick(script).verdict.Honoured? && HeadTick(TailTicks(script)).verdict.Honoured?
    ensures Run(s, WriteConfig(s.kanaries[k], exp, config), script) == (ConfigReplaced(s, k, config), false)
  {
    var ky := s.kanaries[k];
    var t, u := WriteConfig(ky, exp, config), ConfigReplaced(s, k, config);
    hide Counted, ConfigMapName;
    assert Step(s, t, HeadTick(script)) == (u, ReadProxy(ky, exp));
    assert Step(u, ReadProxy(ky, exp), HeadTick(TailTicks(script))) == (u, Done(false));
    hide Step;
    RunUnfold(s, t, script);
    RunUnfold(u, ReadProxy(ky, exp), TailTicks(script));
  }

  ghost function ConfigReplaced(s: Store, k: string, config: string): Store {
    s.(rev := s.rev + 1, configMaps := s.configMaps[ConfigMapName(k) := ConfigMap(ConfigMapName(k), config)],
       configWrites := Counted(s.configWrites, ConfigMapName(k)))
  }

  /** The four parts are set, and the recorded endpoints are still those of ky. */
  ghost predicate AllSet(u: Store, k: string, ky: Kanary) {
    && k in u.kanaries && u.kanaries[k].spec == ky.spec
    && u.kanaries[k].status
       == KanaryStatus(DestinationStatus(ProxyName(k), ky.spec.destination, ConfigMapName(k)), ky.status.endpoints)
    && ProxyName(k) in u.deployments && ky.spec.destination in u.services
  }

  /** The next fault-free sync, on any view, gives a half-set Kanary its proxy and its
      service exactly when the recorded endpoints still cover the expectation.
      Otherwise it replaces the published configuration, fails to roll the proxy that is
      not there, ends without an error and records nothing: the Kanary is as it was. */
  lemma HalfSetSync(printer: WeightPrinter, s: Store, k: string, script: seq<Tick>)
    requires HalfWay(s, k) && Honoured(script) && ExpectedOf(s.kanaries[k].spec.routes, s.endpoints).Some?
    ensures var ky := s.kanaries[k];
            var exp := ExpectedOf(ky.spec.routes, s.endpoints).value;
            var (u, err) := Run(s, Start(printer, s, k), script);
            && !err
            && (AllSet(u, k, ky) <==> StatusCovers(exp, ky.status.endpoints))
            && if StatusCovers(exp, ky.status.endpoints) then u.configMaps == s.configMaps && u.endpoints == s.endpoints
               else u == ConfigReplaced(s, k, ConfigFor(printer, exp)) && HalfWay(u, k)
  {
    var ky := s.kanaries[k];
    var exp := ExpectedOf(ky.spec.routes, s.endpoints).value;
    HalfSetStart(printer, s, k, exp);
    assert ky.name == k;
    if StatusCovers(exp, ky.status.endpoints) {
      hide Start, Run, ConfigFor, ExpectedOf, StatusCovers, ConfigMapName, ProxyName;
      LateRun(s, CreateProxy(ky), script);
      ProxyThenService(s, k);
    } else {
      NextHonoured(script);
      NextHonoured(TailTicks(script));
      hide Start, Run, ConfigFor, ExpectedOf, StatusCovers, ConfigMapName, ProxyName, Counted;
      RollingNothing(s, k, exp, ConfigFor(printer, exp), script);
    }
  }

  lemma HalfSetStart(printer: WeightPrinter, s: Store, k: string, exp: seq<KanaryEndpointList>)
    requires HalfWay(s, k) && ExpectedOf(s.kanaries[k].spec.routes, s.endpoints) == Some(exp)
    ensures Start(printer, s, k)
            == if StatusCovers(exp, s.kanaries[k].status.endpoints) then CreateProxy(s.kanaries[k])
               else WriteConfig(s.kanaries[k], exp, ConfigFor(printer, exp))
  {
    hide ExpectedOf, StatusCovers, Render, WellKeyed, ConfigMapName, ProxyName;
  }

  /** A half-set Kanary whose Endpoints change and change back, each change followed by
      a sync, ends with all four parts set and no sync has anything left to do, but the
      published configuration is the one of the detour and not of the recorded status. */
  lemma DetourStays(printer: WeightPrinter, s: Store, k: string, detour: EndpointsCache, back: EndpointsCache,
                    first: seq<Tick>, second: seq<Tick>)
    requires HalfWay(s, k) && Honoured(first) && Honoured(second) && WellKeyed(s.(endpoints := detour))
    requires WellKeyed(s.(endpoints := back))
    requires var ky := s.kanaries[k];
             && ExpectedOf(ky.spec.routes, detour).Some? && ExpectedOf(ky.spec.routes, back).Some?
             && !StatusCovers(ExpectedOf(ky.spec.routes, detour).value, ky.status.endpoints)
             && StatusCovers(ExpectedOf(ky.spec.routes, back).value, ky.status.endpoints)
    ensures var routes := s.kanaries[k].spec.routes;
            var m := SyncSeeing(printer, s.(endpoints := detour), k, first);
            var u := SyncSeeing(printer, m.(endpoints := back), k, second);
            && AllSet(u, k, s.kanaries[k]) && Quiet(printer, u, k)
            && ConfigMapName(k) in u.configMaps
            && u.configMaps[ConfigMapName(k)].config == ConfigFor(printer, ExpectedOf(routes, detour).value)
  {
    var s', ky := s.(endpoints := detour), s.kanaries[k];
    var m := SyncSeeing(printer, s', k, first);
    var m' := m.(endpoints := back);
    var u := SyncSeeing(printer, m', k, second);
    hide Start, Run, ConfigFor, ExpectedOf, StatusCovers, ConfigMapName, ProxyName, Counted;
    HalfSetSync(printer, s', k, first);
    assert HalfWay(m', k) && m'.kanaries[k] == ky;
    HalfSetSync(printer, m', k, second);
    AllSetIsQuiet(printer, u, k, ky);
  }

  lemma AllSetIsQuiet(printer: WeightPrinter, u: Store, k: string, ky: Kanary)
    requires AllSet(u, k, ky) && ExpectedOf(ky.spec.routes, u.endpoints).Some?
    requires StatusCovers(ExpectedOf(ky.spec.routes, u.endpoints).value, ky.status.endpoints)
    ensures Quiet(printer, u, k)
  {
    hide ExpectedOf, StatusCovers, Render;
  }
}
